/** The stepwise verbs refine the atomic ones: a verb whose steps nothing interrupts
    answers what its atomic form does, tables and errors alike. */
module SoloRuns {
  import opened BudgetTypes
  import opened BudgetReads
  import opened BudgetWorkflow
  import opened Races

  function Asks(ask: Check): nat {
    match ask
    case AskAccount => 4
    case AskCostCenter => 3
    case AskPeriod => 2
    case AskKey => 1
  }

  /** The checks left for lines from `next` on. */
  function ChecksLeft(count: nat, next: nat, ask: Check): nat {
    if next < count then 4 * (count - next - 1) + Asks(ask) else 0
  }

  /** How many more steps a task can take. */
  function StepsLeft(k: Task, order: seq<LineId>): nat {
    match k
    case Creating(_, _, input, next, ask) => ChecksLeft(|input.lines|, next, ask) + 2 * |input.lines| + 1
    case Inserting(_, _, input, _, next, minted) =>
      if next < |input.lines| then 2 * (|input.lines| - next) - (if minted.None? then 0 else 1) else 0
    case Adding(_, _, _, _, ask) => Asks(ask) + 1
    case Minting(_, _, _, minted) => if minted.None? then 1 else 0
    case ReadingLines(_, _) => 4 * |order| + 1
    case Confirming(_, _, rows, next, ask) => ChecksLeft(|rows|, next, ask)
    case _ => 0
  }

  /** Run a task to its end with nothing in between: its tables or its error. */
  ghost function Finish(db: Db, k: Task, gl: Gl, order: seq<LineId>): Result<Db, WorkflowError>
    requires k.ReadingLines? ==> IsLineOrder(db, k.budget, order)
    decreases StepsLeft(k, order)
  {
    match Next(db, k, gl, order)
    case Continue(next) => Finish(db, next, gl, order)
    case Fail(e) => Err(e)
    case Commit(after) => Ok(after)
    case Win(after, _) => Ok(after)
  }

  /** A verb from its start to its end. */
  ghost function SoloAnswer(db: Db, gl: Gl, v: Verb, order: seq<LineId>): Result<Db, WorkflowError>
    requires v.Confirm? ==> IsLineOrder(db, v.budget, order)
  {
    match Begin(db, v)
    case Err(e) => Err(e)
    case Ok(k) => Finish(db, k, gl, order)
  }

  // ── create ─────────────────────────────────────────────────────────────────

  /** The four guards of one line, then the next line. */
  lemma CreatingAsks(db: Db, gl: Gl, order: seq<LineId>, id: BudgetId, lineIds: seq<LineId>, input: NewBudget, next: nat)
    requires next < |input.lines|
    ensures Finish(db, Creating(id, lineIds, input, next, AskAccount), gl, order)
         == match Refusal(db, gl, DraftOf(input), id, input.lines[next])
            case Some(e) => Err(e)
            case None => Finish(db, Creating(id, lineIds, input, next + 1, AskAccount), gl, order)
  {
    var line := input.lines[next];
    if AccountRefusal(gl, line).None? {
      assert Finish(db, Creating(id, lineIds, input, next, AskAccount), gl, order) == Finish(db, Creating(id, lineIds, input, next, AskCostCenter), gl, order);
      if CostCenterRefusal(gl, line).None? {
        assert Finish(db, Creating(id, lineIds, input, next, AskCostCenter), gl, order) == Finish(db, Creating(id, lineIds, input, next, AskPeriod), gl, order);
        if PeriodRefusal(gl, DraftOf(input), line).None? {
          assert Finish(db, Creating(id, lineIds, input, next, AskPeriod), gl, order) == Finish(db, Creating(id, lineIds, input, next, AskKey), gl, order);
        }
      }
    }
  }

  lemma {:induction false} FinishCreating(db: Db, gl: Gl, order: seq<LineId>, id: BudgetId, lineIds: seq<LineId>, input: NewBudget, next: nat)
    requires next <= |input.lines|
    ensures Finish(db, Creating(id, lineIds, input, next, AskAccount), gl, order)
         == match FirstRefusal(db, gl, DraftOf(input), id, input.lines[next..])
            case Some(e) => Err(e)
            case None => Finish(db, Creating(id, lineIds, input, |input.lines|, AskAccount), gl, order)
    decreases |input.lines| - next
  {
    if next < |input.lines| {
      assert input.lines[next..][0] == input.lines[next] && input.lines[next..][1..] == input.lines[next + 1..];
      CreatingAsks(db, gl, order, id, lineIds, input, next);
      FinishCreating(db, gl, order, id, lineIds, input, next + 1);
    }
  }

  /** Period by period and row by row, the inserts are those of the batch. */
  lemma {:induction false} FinishInserting(db: Db, gl: Gl, order: seq<LineId>, id: BudgetId, lineIds: seq<LineId>, input: NewBudget,
                                           mine: map<LineId, BudgetLine>, next: nat)
    requires |lineIds| == |input.lines| && next <= |input.lines|
    requires id !in db.budgets && forall l | l in mine :: l !in db.lines
    ensures Finish(db, Inserting(id, lineIds, input, mine, next, None), gl, order)
         == InsertLines(gl, View(db, id, input, mine), id, lineIds[next..], input.lines[next..])
    decreases |input.lines| - next
  {
    var k := Inserting(id, lineIds, input, mine, next, None);
    if next < |input.lines| {
      var line, l, view := input.lines[next], lineIds[next], View(db, id, input, mine);
      assert input.lines[next..][0] == line && input.lines[next..][1..] == input.lines[next + 1..];
      assert lineIds[next..][0] == l && lineIds[next..][1..] == lineIds[next + 1..];
      if PeriodToMint(gl, line.period).Ok? {
        var period := PeriodToMint(gl, line.period).value;
        var row := NewRow(period, id, line);
        assert Finish(db, k, gl, order) == Finish(db, Inserting(id, lineIds, input, mine, next, Some(period)), gl, order);
        if InsertRow(view, l, row).Ok? {
          assert view.(lines := view.lines[l := row]) == View(db, id, input, mine[l := row]);
          FinishInserting(db, gl, order, id, lineIds, input, mine[l := row], next + 1);
        }
      }
    }
  }

  lemma FinishCreate(db: Db, gl: Gl, order: seq<LineId>, id: BudgetId, lineIds: seq<LineId>, input: NewBudget)
    requires |lineIds| == |input.lines|
    requires input.dateFrom <= input.dateTo && !CodeInUse(db, input.code, id)
    ensures Finish(db, Creating(id, lineIds, input, 0, AskAccount), gl, order) == AnswerOf(CreateEffect(db, gl, id, lineIds, input))
  {
    assert input.lines[0..] == input.lines && lineIds[0..] == lineIds;
    FinishCreating(db, gl, order, id, lineIds, input, 0);
    if InsertHeader(db, id, DraftOf(input)).Ok? {
      FinishInserting(db, gl, order, id, lineIds, input, map[], 0);
      assert View(db, id, input, map[]) == InsertHeader(db, id, DraftOf(input)).value;
      assert Finish(db, Creating(id, lineIds, input, |input.lines|, AskAccount), gl, order)
          == Finish(db, Inserting(id, lineIds, input, map[], 0, None), gl, order);
    }
  }

  // ── add_line ───────────────────────────────────────────────────────────────

  lemma AddingAsks(db: Db, gl: Gl, order: seq<LineId>, b: BudgetId, header: Budget, l: LineId, line: NewBudgetLine)
    ensures Finish(db, Adding(b, header, l, line, AskAccount), gl, order)
         == match Refusal(db, gl, header, b, line)
            case Some(e) => Err(e)
            case None => Finish(db, Minting(b, l, line, None), gl, order)
  {
    if AccountRefusal(gl, line).None? {
      assert Finish(db, Adding(b, header, l, line, AskAccount), gl, order) == Finish(db, Adding(b, header, l, line, AskCostCenter), gl, order);
      if CostCenterRefusal(gl, line).None? {
        assert Finish(db, Adding(b, header, l, line, AskCostCenter), gl, order) == Finish(db, Adding(b, header, l, line, AskPeriod), gl, order);
        if PeriodRefusal(gl, header, line).None? {
          assert Finish(db, Adding(b, header, l, line, AskPeriod), gl, order) == Finish(db, Adding(b, header, l, line, AskKey), gl, order);
        }
      }
    }
  }

  lemma FinishAdding(db: Db, gl: Gl, order: seq<LineId>, b: BudgetId, l: LineId, line: NewBudgetLine)
    requires InDraft(db, b)
    ensures Finish(db, Adding(b, db.budgets[b], l, line, AskAccount), gl, order) == AnswerOf(AddLineEffect(db, gl, b, l, line))
  {
    AddingAsks(db, gl, order, b, db.budgets[b], l, line);
    if PeriodToMint(gl, line.period).Ok? {
      var period := PeriodToMint(gl, line.period).value;
      assert Finish(db, Minting(b, l, line, None), gl, order) == Finish(db, Minting(b, l, line, Some(period)), gl, order);
    }
  }

  // ── confirm ────────────────────────────────────────────────────────────────

  function Offered(rows: seq<BudgetLine>): seq<NewBudgetLine> {
    seq(|rows|, i requires 0 <= i < |rows| => Candidate(rows[i]))
  }

  lemma ConfirmingAsks(db: Db, gl: Gl, order: seq<LineId>, b: BudgetId, header: Budget, rows: seq<BudgetLine>, next: nat)
    requires next < |rows|
    ensures Finish(db, Confirming(b, header, rows, next, AskAccount), gl, order)
         == match Refusal(db, gl, header, b, Candidate(rows[next]))
            case Some(e) => Err(e)
            case None => Finish(db, Confirming(b, header, rows, next + 1, AskAccount), gl, order)
  {
    var line := Candidate(rows[next]);
    if AccountRefusal(gl, line).None? {
      assert Finish(db, Confirming(b, header, rows, next, AskAccount), gl, order) == Finish(db, Confirming(b, header, rows, next, AskCostCenter), gl, order);
      if CostCenterRefusal(gl, line).None? {
        assert Finish(db, Confirming(b, header, rows, next, AskCostCenter), gl, order) == Finish(db, Confirming(b, header, rows, next, AskPeriod), gl, order);
        if PeriodRefusal(gl, header, line).None? {
          assert Finish(db, Confirming(b, header, rows, next, AskPeriod), gl, order) == Finish(db, Confirming(b, header, rows, next, AskKey), gl, order);
        }
      }
    }
  }

  lemma {:induction false} FinishConfirming(db: Db, gl: Gl, order: seq<LineId>, b: BudgetId, rows: seq<BudgetLine>, next: nat)
    requires InDraft(db, b) && next <= |rows|
    ensures Finish(db, Confirming(b, db.budgets[b], rows, next, AskAccount), gl, order)
         == match FirstRefusal(db, gl, db.budgets[b], b, Offered(rows)[next..])
            case Some(e) => Err(e)
            case None => Ok(WithStatus(db, b, Confirmed))
    decreases |rows| - next
  {
    if next < |rows| {
      assert Offered(rows)[next..][0] == Candidate(rows[next]) && Offered(rows)[next..][1..] == Offered(rows)[next + 1..];
      ConfirmingAsks(db, gl, order, b, db.budgets[b], rows, next);
      FinishConfirming(db, gl, order, b, rows, next + 1);
    }
  }

  lemma FinishConfirm(db: Db, gl: Gl, order: seq<LineId>, b: BudgetId)
    requires InDraft(db, b) && IsLineOrder(db, b, order)
    ensures IsAnswer(db, gl, Confirm(b), Finish(db, ReadingLines(b, db.budgets[b]), gl, order))
  {
    var answer := Finish(db, ReadingLines(b, db.budgets[b]), gl, order);
    var effect: Effect<Budget> :=
      if answer.Ok? then TransitionEffect(db, b, ToConfirmed) else Effect(Err(answer.error), db);
    if order == [] {
      assert forall l :: l !in LiveLinesOf(db, b);
    } else {
      assert order[0] in LiveLinesOf(db, b);
      CandidatesAreLines(db, b, order);
      var rows := RowsIn(db, order);
      assert Offered(rows)[0..] == Offered(rows) == Candidates(db, order);
      FinishConfirming(db, gl, order, b, rows, 0);
      NoRefusal(db, gl, db.budgets[b], b, Candidates(db, order));
    }
    assert IsConfirm(db, gl, b, effect);
  }

  /** Without interference, every verb's steps end in an answer of the atomic verb: the same tables, or the same error
      with nothing written. */
  lemma SoloIsAtomic(db: Db, gl: Gl, v: Verb, order: seq<LineId>)
    requires Drawn(v)
    requires v.Confirm? ==> IsLineOrder(db, v.budget, order)
    ensures IsAnswer(db, gl, v, SoloAnswer(db, gl, v, order))
  {
    match v {
      case Create(id, lineIds, input) =>
        if Begin(db, v).Ok? {
          FinishCreate(db, gl, order, id, lineIds, input);
        }
      case AddLine(b, l, line) =>
        if InDraft(db, b) {
          FinishAdding(db, gl, order, b, l, line);
        }
      case Confirm(b) =>
        if InDraft(db, b) {
          FinishConfirm(db, gl, order, b);
        } else {
          assert IsConfirm(db, gl, b, Effect(Err(Begin(db, v).error), db));
        }
      case _ =>
    }
  }
}
