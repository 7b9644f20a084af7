/** `BudgetWorkflowService` over its two tables. Each verb opens a transaction (a private
    copy of the tables), checks, writes to the copy, and commits by publishing it; a
    return before the commit is a rollback. */
module BudgetStores {
  import opened BudgetTypes
  import opened BudgetReads
  import opened BudgetWorkflow
  import opened WorkflowLaws
  import opened ControlEffects

  class BudgetStore {
    var budgets: map<BudgetId, Budget>
    var lines: map<LineId, BudgetLine>

    function State(): Db
      reads this
    {
      Db(budgets, lines)
    }

    constructor (db: Db)
      ensures State() == db
    {
      budgets, lines := db.budgets, db.lines;
    }

    method Commit(tx: Db)
      modifies this
      ensures State() == tx
    {
      budgets, lines := tx.budgets, tx.lines;
    }

    method CreateBudget(gl: Gl, id: BudgetId, lineIds: seq<LineId>, input: NewBudget)
      returns (r: Result<Budget, WorkflowError>)
      requires |lineIds| == |input.lines|
      modifies this
      ensures Effect(r, State()) == CreateEffect(old(State()), gl, id, lineIds, input)
      ensures r.Ok? <==> CanCreate(old(State()), gl, id, lineIds, input)
      ensures r.Ok? ==> BudgetStored(old(State()), State(), gl, id, lineIds, input)
      ensures r.Ok? ==> id in budgets && budgets[id] == r.value && HeaderAsked(input, r.value)
      ensures r.Ok? ==> forall line | line in input.lines ::
                GoodAccount(gl, line.account) && (line.costCenter.Some? ==> GoodCostCenter(gl, line.costCenter.value))
      ensures r.Err? ==> State() == old(State())
      ensures Positions(State()) == old(Positions(State()))
    {
      DraftUnseen(State(), gl, Create(id, lineIds, input));
      CreateSucceedsExactly(State(), gl, id, lineIds, input);
      if CanCreate(State(), gl, id, lineIds, input) {
        CreateAddsExactly(State(), gl, id, lineIds, input);
      }
      if input.dateFrom > input.dateTo {
        return Err(BadDateRange);
      }
      var tx := State();
      var header := DraftOf(input);
      if CodeInUse(tx, input.code, id) {
        return Err(CodeTaken);
      }
      var i := 0;
      while i < |input.lines|
        invariant 0 <= i <= |input.lines|
        invariant State() == old(State()) == tx
        invariant FirstRefusal(tx, gl, header, id, input.lines) == FirstRefusal(tx, gl, header, id, input.lines[i..])
      {
        var line := input.lines[i];
        var refusal := LineRefusal(gl, header, line);
        if refusal.Some? {
          return Err(refusal.value);
        }
        if KeyTaken(tx, KeyOfNew(line), id) {
          return Err(CoverageConflict);
        }
        i := i + 1;
      }
      var started := InsertHeader(tx, id, header);
      if started.Err? {
        return Err(started.error);
      }
      tx := started.value;
      ghost var begun := tx;
      i := 0;
      while i < |input.lines|
        invariant 0 <= i <= |input.lines|
        invariant State() == old(State())
        invariant InsertLines(gl, begun, id, lineIds, input.lines) == InsertLines(gl, tx, id, lineIds[i..], input.lines[i..])
      {
        var inserted := InsertLine(gl, tx, id, lineIds[i], input.lines[i]);
        if inserted.Err? {
          return Err(inserted.error);
        }
        tx := inserted.value;
        i := i + 1;
      }
      Commit(tx);
      return Ok(header);
    }

    method UpdateBudget(b: BudgetId, patch: BudgetPatch) returns (r: Result<Budget, WorkflowError>)
      modifies this
      ensures Effect(r, State()) == PatchEffect(old(State()), b, patch)
      ensures r.Ok? <==> CanPatch(old(State()), b, patch)
      ensures r.Ok? ==> OnlyHeader(old(State()), State(), b) && budgets[b] == r.value && PatchedFrom(old(budgets[b]), patch, r.value)
      ensures r == Err(NotDraft) <==>
                && b in old(budgets) && !old(budgets[b]).deleted && old(budgets[b]).status != Draft
                && (patch.name.Some? || patch.description.Some? || patch.dateFrom.Some? || patch.dateTo.Some?)
      ensures r == Err(EnforcementLocked) <==>
                && b in old(budgets) && !old(budgets[b]).deleted && old(budgets[b]).status in {Closed, Cancelled}
                && patch.enforcement.Some? && AsksNoField(patch)
      ensures r.Ok? && old(budgets[b]).status != Draft ==> AsksNoField(patch) && patch.enforcement.Some?
      ensures r.Err? ==> State() == old(State())
      ensures r.Ok? && patch.enforcement.Some? ==>
                Positions(State()) == set pos | pos in old(Positions(State())) :: Postured(pos, b, patch.enforcement.value)
      ensures r.Ok? && patch.enforcement.None? ==> Positions(State()) == old(Positions(State()))
    {
      PatchExactly(State(), b, patch);
      if CanPatch(State(), b, patch) {
        PatchPostures(State(), b, patch);
      }
      var tx := State();
      if !LiveBudget(tx, b) {
        return Err(NotFound);
      }
      var header := tx.budgets[b];
      if WantsFrozenFields(patch) && header.status != Draft {
        return Err(NotDraft);
      }
      if patch.enforcement.Some? {
        match header.status {
          case Draft | Confirmed =>
            var updated := header.(enforcement := patch.enforcement.value);
            Commit(tx.(budgets := tx.budgets[b := updated]));
            return Ok(updated);
          case _ =>
            return Err(EnforcementLocked);
        }
      }
      var newFrom := Or(patch.dateFrom, header.dateFrom);
      var newTo := Or(patch.dateTo, header.dateTo);
      if newFrom > newTo {
        return Err(BadDateRange);
      }
      var newDescription := if patch.description.Some? then patch.description.value else None;
      var updated := header.(
        name := Or(patch.name, header.name),
        description := if newDescription.Some? then newDescription else header.description,
        dateFrom := newFrom,
        dateTo := newTo);
      if header.status != Draft {
        return Err(Mapped(NoRow));
      }
      if !BudgetRowOk(updated) {
        return Err(Mapped(BrokenCheck));
      }
      Commit(tx.(budgets := tx.budgets[b := updated]));
      return Ok(updated);
    }

    method AddLine(gl: Gl, b: BudgetId, id: LineId, line: NewBudgetLine) returns (r: Result<BudgetLine, WorkflowError>)
      modifies this
      ensures Effect(r, State()) == AddLineEffect(old(State()), gl, b, id, line)
      ensures r.Ok? <==> CanAddLine(old(State()), gl, b, id, line)
      ensures r.Ok? ==>
                && OnlyRow(old(State()), State(), id)
                && lines[id] == r.value
                && RowOf(gl, b, line, r.value)
                && GoodAccount(gl, line.account)
                && (line.costCenter.Some? ==> GoodCostCenter(gl, line.costCenter.value))
                && id !in LiveLinesOf(old(State()), b)
                && LiveLinesBecome(old(State()), State(), b, LiveLinesOf(old(State()), b) + {id})
      ensures r.Err? ==> State() == old(State())
      ensures Positions(State()) == old(Positions(State()))
    {
      AddLineExactly(State(), gl, b, id, line);
      DraftUnseen(State(), gl, Verb.AddLine(b, id, line));
      var tx := State();
      if !LiveBudget(tx, b) {
        return Err(NotFound);
      }
      if tx.budgets[b].status != Draft {
        return Err(NotDraft);
      }
      var refusal := LineRefusal(gl, tx.budgets[b], line);
      if refusal.Some? {
        return Err(refusal.value);
      }
      if KeyTaken(tx, KeyOfNew(line), b) {
        return Err(CoverageConflict);
      }
      var inserted := InsertLine(gl, tx, b, id, line);
      if inserted.Err? {
        return Err(inserted.error);
      }
      Commit(inserted.value);
      return Ok(inserted.value.lines[id]);
    }

    method UpdateLine(b: BudgetId, l: LineId, planned: real, notes: Option<string>) returns (r: Result<BudgetLine, WorkflowError>)
      modifies this
      ensures Effect(r, State()) == UpdateLineEffect(old(State()), b, l, planned, notes)
      ensures r.Ok? <==> CanUpdateLine(old(State()), b, l, planned, notes)
      ensures r.Ok? ==>
                && OnlyRow(old(State()), State(), l)
                && lines[l] == r.value == old(lines[l]).(planned := r.value.planned, notes := notes)
                && NearestCent(planned, r.value.planned)
                && LiveLinesBecome(old(State()), State(), b, LiveLinesOf(old(State()), b))
      ensures r.Err? ==> State() == old(State())
      ensures Positions(State()) == old(Positions(State()))
    {
      UpdateLineExactly(State(), b, l, planned, notes);
      DraftUnseen(State(), NO_MASTERS, Verb.UpdateLine(b, l, planned, notes));
      if planned <= 0.0 {
        return Err(InvalidAmount);
      }
      var tx := State();
      if !LiveBudget(tx, b) {
        return Err(NotFound);
      }
      if tx.budgets[b].status != Draft {
        return Err(NotDraft);
      }
      if !(LiveLine(tx, l) && tx.lines[l].budget == b) {
        return Err(LineNotFound);
      }
      var updated := tx.lines[l].(planned := ToCents(planned), notes := notes);
      if !LineRowOk(updated) {
        return Err(Mapped(BrokenCheck));
      }
      Commit(tx.(lines := tx.lines[l := updated]));
      return Ok(updated);
    }

    method DeleteLine(b: BudgetId, l: LineId) returns (r: Result<(), WorkflowError>)
      modifies this
      ensures Effect(r, State()) == DeleteLineEffect(old(State()), b, l)
      ensures r.Ok? <==> CanDeleteLine(old(State()), b, l)
      ensures r.Ok? ==>
                && OnlyRow(old(State()), State(), l)
                && lines[l] == old(lines[l]).(deleted := true)
                && LiveLinesBecome(old(State()), State(), b, LiveLinesOf(old(State()), b) - {l})
      ensures r.Err? ==> State() == old(State())
      ensures Positions(State()) == old(Positions(State()))
    {
      DeleteLineExactly(State(), b, l);
      DraftUnseen(State(), NO_MASTERS, Verb.DeleteLine(b, l));
      var tx := State();
      if !LiveBudget(tx, b) {
        return Err(NotFound);
      }
      if tx.budgets[b].status != Draft {
        return Err(NotDraft);
      }
      if !(LiveLine(tx, l) && tx.lines[l].budget == b) {
        return Err(LineNotFound);
      }
      Commit(tx.(lines := tx.lines[l := tx.lines[l].(deleted := true)]));
      return Ok(());
    }

    /** The guards run again over the stored lines, in the query's order; then the compare-and-set. */
    method ConfirmBudget(gl: Gl, b: BudgetId) returns (r: Result<Budget, WorkflowError>)
      modifies this
      ensures IsConfirm(old(State()), gl, b, Effect(r, State()))
      ensures r.Ok? <==> CanConfirm(old(State()), gl, b)
      ensures ConfirmTold(old(State()), gl, b, r, State())
      ensures State() == Apply(old(State()), gl, Confirm(b))
      ensures Positions(State()) == old(Positions(State())) + if r.Ok? then PositionsOf(State(), b) else {}
      ensures r.Ok? ==> PositionsOf(old(State()), b) == {} && PositionsOf(State(), b) != {}
    {
      ConfirmPuts(State(), gl, b);
      forall effect | IsConfirm(State(), gl, b, effect)
        ensures (effect.result.Ok? <==> CanConfirm(State(), gl, b)) && ConfirmTold(State(), gl, b, effect.result, effect.db)
      {
        ConfirmTellsRows(State(), gl, b, effect);
      }
      var tx := State();
      if !LiveBudget(tx, b) {
        return Err(NotFound);
      }
      var header := tx.budgets[b];
      if header.status != Draft {
        return Err(InvalidTransition(header.status));
      }
      var ids := BudgetLines(tx, b);
      if ids == [] {
        assert LiveLinesOf(tx, b) == {};
        return Err(NoLines);
      }
      var refusal := RefusalOfStored(tx, gl, header, b, ids);
      OrderDecides(tx, gl, b, ids);
      if refusal.Some? {
        return Err(refusal.value);
      }
      Commit(WithStatus(tx, b, Confirmed));
      return Ok(budgets[b]);
    }

    /** Re-run the guards over the stored lines. */
    method RefusalOfStored(tx: Db, gl: Gl, header: Budget, b: BudgetId, ids: seq<LineId>) returns (refusal: Option<WorkflowError>)
      requires IsLineOrder(tx, b, ids)
      ensures forall l | l in ids :: l in tx.lines
      ensures refusal == FirstRefusal(tx, gl, header, b, Candidates(tx, ids))
    {
      assert forall l | l in ids :: l in LiveLinesOf(tx, b);
      ghost var candidates := Candidates(tx, ids);
      for i := 0 to |ids|
        invariant FirstRefusal(tx, gl, header, b, candidates) == FirstRefusal(tx, gl, header, b, candidates[i..])
      {
        assert ids[i] in ids;
        var candidate := Candidate(tx.lines[ids[i]]);
        assert candidates[i..][0] == candidate;
        var refused := LineRefusal(gl, header, candidate);
        if refused.Some? {
          return refused;
        }
        if KeyTaken(tx, KeyOfNew(candidate), b) {
          return Some(CoverageConflict);
        }
      }
      return None;
    }

    method CloseBudget(b: BudgetId) returns (r: Result<Budget, WorkflowError>)
      modifies this
      ensures Effect(r, State()) == TransitionEffect(old(State()), b, ToClosed)
      ensures r.Ok? <==> b in old(budgets) && !old(budgets[b]).deleted && old(budgets[b]).status == Confirmed
      ensures r.Ok? ==> OnlyHeader(old(State()), State(), b) && budgets[b] == r.value == old(budgets[b]).(status := Closed)
      ensures Positions(State()) == old(Positions(State())) - if r.Ok? then PositionsOf(old(State()), b) else {}
    {
      EndsControl(State(), b, ToClosed);
      r := Transition(b, ToClosed);
    }

    method CancelBudget(b: BudgetId) returns (r: Result<Budget, WorkflowError>)
      modifies this
      ensures Effect(r, State()) == TransitionEffect(old(State()), b, ToCancelled)
      ensures r.Ok? <==> b in old(budgets) && !old(budgets[b]).deleted && old(budgets[b]).status in {Draft, Confirmed}
      ensures r.Ok? ==> OnlyHeader(old(State()), State(), b) && budgets[b] == r.value == old(budgets[b]).(status := Cancelled)
      ensures Positions(State()) == old(Positions(State())) - if r.Ok? then PositionsOf(old(State()), b) else {}
    {
      EndsControl(State(), b, ToCancelled);
      r := Transition(b, ToCancelled);
    }

    method Transition(b: BudgetId, v: LifecycleVerb) returns (r: Result<Budget, WorkflowError>)
      modifies this
      ensures Effect(r, State()) == TransitionEffect(old(State()), b, v)
      ensures r.Ok? <==> b in old(budgets) && !old(budgets[b]).deleted && old(budgets[b]).status in AllowedFrom(v)
      ensures r.Ok? ==> OnlyHeader(old(State()), State(), b) && budgets[b] == r.value == old(budgets[b]).(status := Target(v))
      ensures r.Err? ==> State() == old(State())
      ensures r.Err? ==> r.error == if b in old(budgets) && !old(budgets[b]).deleted then InvalidTransition(old(budgets[b]).status) else NotFound
    {
      TransitionExactly(State(), b, v);
      var tx := State();
      if !LiveBudget(tx, b) {
        return Err(NotFound);
      }
      var seen := tx.budgets[b].status;
      if seen !in AllowedFrom(v) {
        return Err(InvalidTransition(seen));
      }
      Commit(WithStatus(tx, b, Target(v)));
      return Ok(budgets[b]);
    }
  }

  /** What confirm answers and leaves, told on the rows. */
  ghost predicate ConfirmTold(db: Db, gl: Gl, b: BudgetId, r: Result<Budget, WorkflowError>, after: Db) {
    && (r == Err(NotFound) <==> b !in db.budgets || db.budgets[b].deleted)
    && (b in db.budgets && !db.budgets[b].deleted && db.budgets[b].status != Draft ==> r == Err(InvalidTransition(db.budgets[b].status)))
    && (r == Err(NoLines) <==>
          && b in db.budgets && !db.budgets[b].deleted && db.budgets[b].status == Draft
          && !exists l | l in db.lines :: !db.lines[l].deleted && db.lines[l].budget == b)
    && (r.Err? ==> after == db)
    && (r.Ok? ==>
          && b in db.budgets
          && OnlyHeader(db, after, b)
          && after.budgets[b] == r.value == db.budgets[b].(status := Confirmed)
          && forall l | l in db.lines && !db.lines[l].deleted && db.lines[l].budget == b ::
               && GoodAccount(gl, db.lines[l].account)
               && (db.lines[l].costCenter.Some? ==> GoodCostCenter(gl, db.lines[l].costCenter.value)))
  }

  lemma ConfirmTellsRows(db: Db, gl: Gl, b: BudgetId, effect: Effect<Budget>)
    requires IsConfirm(db, gl, b, effect)
    ensures effect.result.Ok? <==> CanConfirm(db, gl, b)
    ensures ConfirmTold(db, gl, b, effect.result, effect.db)
  {
    ConfirmRefuses(db, gl, b, effect);
    ConfirmSucceedsExactly(db, gl, b);
  }

  /** The lines in any order of the query decide a confirm. */
  lemma OrderDecides(db: Db, gl: Gl, b: BudgetId, ids: seq<LineId>)
    requires InDraft(db, b) && IsLineOrder(db, b, ids) && ids != []
    ensures forall l | l in ids :: l in db.lines
    ensures IsConfirm(db, gl, b, match FirstRefusal(db, gl, db.budgets[b], b, Candidates(db, ids))
                                 case Some(e) => Effect(Err(e), db)
                                 case None => TransitionEffect(db, b, ToConfirmed))
  {
    assert ids[0] in ids;
    CandidatesAreLines(db, b, ids);
    NoRefusal(db, gl, db.budgets[b], b, Candidates(db, ids));
  }

  /** Verbs that read no masters. */
  const NO_MASTERS := Gl(false, map[], map[], map[])

  /** Create and the edits of a draft's lines change nothing that control sees. */
  lemma DraftUnseen(db: Db, gl: Gl, v: Verb)
    requires Drawn(v) && (v.Create? || v.AddLine? || v.UpdateLine? || v.DeleteLine?)
    ensures Positions(Apply(db, gl, v)) == Positions(db)
  {
    if Succeeds(db, gl, v) {
      if v.Create? {
        CreateAddsExactly(db, gl, v.id, v.lineIds, v.input);
      }
      UnconfirmedVerbInvisible(db, gl, v);
    } else {
      FailedVerbWritesNothing(db, gl, v);
    }
  }

  lemma PatchPostures(db: Db, b: BudgetId, patch: BudgetPatch)
    requires CanPatch(db, b, patch)
    ensures patch.enforcement.Some? ==>
              Positions(PatchEffect(db, b, patch).db) == set pos | pos in Positions(db) :: Postured(pos, b, patch.enforcement.value)
    ensures patch.enforcement.None? ==> Positions(PatchEffect(db, b, patch).db) == Positions(db)
  {
    var v := Patch(b, patch);
    PatchExactly(db, b, patch);
    if IsConfirmed(db, b) {
      ConfirmedVerbOnlyPostures(db, NO_MASTERS, v);
    } else {
      UnconfirmedVerbInvisible(db, NO_MASTERS, v);
      forall pos | pos in Positions(db) ensures pos.budget != b {
        if pos.budget == b {
          UnconfirmedHasNone(db, b, pos);
        }
      }
    }
  }

  lemma ConfirmPuts(db: Db, gl: Gl, b: BudgetId)
    ensures var after := Apply(db, gl, Confirm(b));
            && Positions(after) == Positions(db) + (if Confirmable(db, gl, b) then PositionsOf(after, b) else {})
            && (Confirmable(db, gl, b) ==> PositionsOf(db, b) == {} && PositionsOf(after, b) != {})
  {
    if Confirmable(db, gl, b) {
      ConfirmAddsItsPositions(db, gl, b);
      var l :| l in LiveLinesOf(db, b);
      assert PositionOf(db, l) in PositionsOf(Apply(db, gl, Confirm(b)), b);
    }
  }

  lemma EndsControl(db: Db, b: BudgetId, v: LifecycleVerb)
    requires v != ToConfirmed
    ensures var e := TransitionEffect(db, b, v);
            Positions(e.db) == Positions(db) - (if e.result.Ok? then PositionsOf(db, b) else {})
  {
    var verb := if v == ToClosed then Close(b) else Cancel(b);
    if IsConfirmed(db, b) {
      CloseAndCancelRemoveItsPositions(db, NO_MASTERS, verb);
    } else {
      UnconfirmedVerbInvisible(db, NO_MASTERS, verb);
      forall pos | pos in PositionsOf(db, b) ensures false {
        UnconfirmedHasNone(db, b, pos);
      }
    }
  }
}
