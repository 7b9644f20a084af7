/** What each verb of `BudgetWorkflowService` does to the two tables, as functions of
    the tables, the masters and the verb's arguments. `BudgetStore` proves its methods
    against these; the laws of whole runs are proved about them.

    The random ids of new rows are arguments. The database is the undecorated one:
    primary keys, the declared CHECK constraints and the NUMERIC(18,2) column, but no
    unique index on codes or control keys. */
module BudgetWorkflow {
  import opened BudgetTypes
  import opened BudgetReads

  datatype WorkflowError =
    | NotFound
    | LineNotFound
    | NotDraft
    | InvalidTransition(current: Status)
    | NoLines
    | CoverageConflict
    | InvalidAmount
    | AccountMissing(account: AccountId)
    | CostCenterInvalid(costCenter: CostCenterId)
    | PeriodInvalid(period: PeriodId)
    | BadDateRange
    | EnforcementLocked
    | CodeTaken
    | AccountingUnwired
    | Internal

  datatype Table = BudgetsTable | LinesTable

  /** How a database call fails: the configuration error that the ledger-schema probe raises, a query on a
      table that is not there, a broken CHECK, a repeated primary key, or a single row asked for and none found. */
  datatype SqlError = Configuration | MissingTable | BrokenCheck | Duplicate(table: Table) | NoRow

  /** The mapping every database error of a verb goes through. */
  function Mapped(e: SqlError): WorkflowError {
    match e
    case Configuration => AccountingUnwired
    case Duplicate(LinesTable) => CoverageConflict
    case Duplicate(BudgetsTable) => CodeTaken
    case _ => Internal
  }

  datatype NewBudgetLine = NewBudgetLine(
    account: AccountId,
    costCenter: Option<CostCenterId>,
    period: PeriodId,
    planned: real,
    notes: Option<string>)

  datatype NewBudget = NewBudget(
    code: string,
    name: string,
    description: Option<string>,
    fiscalYear: int,
    dateFrom: Date,
    dateTo: Date,
    enforcement: Enforcement,
    lines: seq<NewBudgetLine>)

  datatype BudgetPatch = BudgetPatch(
    name: Option<string>,
    description: Option<Option<string>>,
    dateFrom: Option<Date>,
    dateTo: Option<Date>,
    enforcement: Option<Enforcement>)

  /** A verb's answer and the tables it leaves. */
  datatype Effect<+T> = Effect(result: Result<T, WorkflowError>, db: Db)

  function KeyOfNew(line: NewBudgetLine): LineKey {
    LineKey(line.account, line.costCenter, line.period)
  }

  // ── what the database itself enforces on a row ─────────────────────────────

  /** NUMERIC(18,2): rounded to cents, halves away from zero. */
  function ToCents(x: real): real {
    if x < 0.0 then -((-x * 100.0 + 0.5).Floor as real / 100.0) else (x * 100.0 + 0.5).Floor as real / 100.0
  }

  predicate NotBlank(s: string) {
    exists c | c in s :: c != ' '
  }

  predicate BudgetRowOk(b: Budget) {
    && NotBlank(b.code) && |b.code| <= 30
    && NotBlank(b.name) && |b.name| <= 100
    && (b.description.Some? ==> |b.description.value| <= 500)
    && 2020 <= b.fiscalYear <= 2100
  }

  predicate LineRowOk(l: BudgetLine) {
    && 2020 <= l.fiscalYear <= 2100
    && (l.fiscalMonth.Some? ==> 1 <= l.fiscalMonth.value <= 12)
    && 0.0 <= l.planned < 10000000000000000.0
    && (l.notes.Some? ==> |l.notes.value| <= 500)
  }

  // ── guards ─────────────────────────────────────────────────────────────────

  /** The amount, then the first master read. */
  function AccountRefusal(gl: Gl, line: NewBudgetLine): Option<WorkflowError> {
    if line.planned <= 0.0 then Some(InvalidAmount)
    else if !gl.wired then Some(Mapped(MissingTable))
    else if !AccountPostable(gl, line.account) then Some(AccountMissing(line.account))
    else None
  }

  function CostCenterRefusal(gl: Gl, line: NewBudgetLine): Option<WorkflowError> {
    if line.costCenter.None? then None
    else if !gl.wired then Some(Mapped(MissingTable))
    else if !CostCenterUsable(gl, line.costCenter.value) then Some(CostCenterInvalid(line.costCenter.value))
    else None
  }

  function PeriodRefusal(gl: Gl, header: Budget, line: NewBudgetLine): Option<WorkflowError> {
    if !gl.wired then Some(Mapped(MissingTable))
    else match FindPeriod(gl, line.period)
      case None => Some(PeriodInvalid(line.period))
      case Some(period) =>
        if period.fiscalYear != header.fiscalYear || period.start < header.dateFrom || period.end > header.dateTo
        then Some(PeriodInvalid(line.period)) else None
  }

  /** The master-data guards, in the order they are asked. */
  function LineRefusal(gl: Gl, header: Budget, line: NewBudgetLine): Option<WorkflowError> {
    if AccountRefusal(gl, line).Some? then AccountRefusal(gl, line)
    else if CostCenterRefusal(gl, line).Some? then CostCenterRefusal(gl, line)
    else PeriodRefusal(gl, header, line)
  }

  /** Some live line of any OTHER budget holds the key. */
  predicate KeyTaken(db: Db, key: LineKey, own: BudgetId) {
    exists l | l in db.lines :: !db.lines[l].deleted && KeyOf(db.lines[l]) == key && db.lines[l].budget != own
  }

  predicate CodeInUse(db: Db, code: string, own: BudgetId) {
    exists b | b in db.budgets :: !db.budgets[b].deleted && db.budgets[b].code == code && b != own
  }

  function Refusal(db: Db, gl: Gl, header: Budget, own: BudgetId, line: NewBudgetLine): Option<WorkflowError> {
    match LineRefusal(gl, header, line)
    case Some(e) => Some(e)
    case None => if KeyTaken(db, KeyOfNew(line), own) then Some(CoverageConflict) else None
  }

  function FirstRefusal(db: Db, gl: Gl, header: Budget, own: BudgetId, lines: seq<NewBudgetLine>): Option<WorkflowError> {
    if lines == [] then None else
      match Refusal(db, gl, header, own, lines[0])
      case Some(e) => Some(e)
      case None => FirstRefusal(db, gl, header, own, lines[1..])
  }

  // ── inserting lines ────────────────────────────────────────────────────────

  /** The row an insert stores: year and month minted from the period, amount rounded. */
  function NewRow(period: Period, b: BudgetId, line: NewBudgetLine): BudgetLine {
    BudgetLine(b, line.account, line.costCenter, line.period, period.fiscalYear, period.fiscalMonth,
               ToCents(line.planned), line.notes, false)
  }

  /** The period an insert mints from, read again. */
  function PeriodToMint(gl: Gl, p: PeriodId): Result<Period, WorkflowError> {
    if !gl.wired then Err(Mapped(MissingTable))
    else match FindPeriod(gl, p)
      case None => Err(PeriodInvalid(p))
      case Some(period) => Ok(period)
  }

  function InsertRow(tx: Db, id: LineId, row: BudgetLine): Result<Db, WorkflowError> {
    if !LineRowOk(row) then Err(Mapped(BrokenCheck))
    else if id in tx.lines then Err(Mapped(Duplicate(LinesTable)))
    else Ok(tx.(lines := tx.lines[id := row]))
  }

  function InsertLine(gl: Gl, tx: Db, b: BudgetId, id: LineId, line: NewBudgetLine): Result<Db, WorkflowError> {
    match PeriodToMint(gl, line.period)
    case Err(e) => Err(e)
    case Ok(period) => InsertRow(tx, id, NewRow(period, b, line))
  }

  function InsertLines(gl: Gl, tx: Db, b: BudgetId, ids: seq<LineId>, lines: seq<NewBudgetLine>): Result<Db, WorkflowError>
    requires |ids| == |lines|
    decreases |lines|
  {
    if lines == [] then Ok(tx) else
      match InsertLine(gl, tx, b, ids[0], lines[0])
      case Err(e) => Err(e)
      case Ok(next) => InsertLines(gl, next, b, ids[1..], lines[1..])
  }

  // ── the verbs ──────────────────────────────────────────────────────────────

  predicate InDraft(db: Db, b: BudgetId) {
    LiveBudget(db, b) && db.budgets[b].status == Draft
  }

  function DraftOf(input: NewBudget): Budget {
    Budget(input.code, input.name, input.description, input.fiscalYear, input.dateFrom, input.dateTo,
           Draft, input.enforcement, false)
  }

  /** The INSERT of a new header. */
  function InsertHeader(db: Db, id: BudgetId, header: Budget): Result<Db, WorkflowError> {
    if !BudgetRowOk(header) then Err(Mapped(BrokenCheck))
    else if id in db.budgets then Err(Mapped(Duplicate(BudgetsTable)))
    else Ok(db.(budgets := db.budgets[id := header]))
  }

  function CreateEffect(db: Db, gl: Gl, id: BudgetId, lineIds: seq<LineId>, input: NewBudget): Effect<Budget>
    requires |lineIds| == |input.lines|
  {
    var header := DraftOf(input);
    if input.dateFrom > input.dateTo then Effect(Err(BadDateRange), db)
    else if CodeInUse(db, input.code, id) then Effect(Err(CodeTaken), db)
    else match FirstRefusal(db, gl, header, id, input.lines)
      case Some(e) => Effect(Err(e), db)
      case None =>
        match InsertHeader(db, id, header)
        case Err(e) => Effect(Err(e), db)
        case Ok(begun) =>
          match InsertLines(gl, begun, id, lineIds, input.lines)
          case Err(e) => Effect(Err(e), db)
          case Ok(tx) => Effect(Ok(header), tx)
  }

  predicate WantsFrozenFields(patch: BudgetPatch) {
    patch.name.Some? || patch.description.Some? || patch.dateFrom.Some? || patch.dateTo.Some?
  }

  function Or<T>(given: Option<T>, stored: T): T {
    if given.Some? then given.value else stored
  }

  /** The header after the non-enforcement UPDATE. COALESCE keeps the stored description
      when the patch asks to clear it. */
  function Patched(header: Budget, patch: BudgetPatch): Budget {
    header.(
      name := Or(patch.name, header.name),
      description := match patch.description case Some(Some(d)) => Some(d) case _ => header.description,
      dateFrom := Or(patch.dateFrom, header.dateFrom),
      dateTo := Or(patch.dateTo, header.dateTo))
  }

  /** The enforcement UPDATE comes first and alone: a patch that carries enforcement writes nothing else. */
  function PatchEffect(db: Db, b: BudgetId, patch: BudgetPatch): Effect<Budget> {
    if !LiveBudget(db, b) then Effect(Err(NotFound), db)
    else
      var header := db.budgets[b];
      if WantsFrozenFields(patch) && header.status != Draft then Effect(Err(NotDraft), db)
      else if patch.enforcement.Some? then
        if header.status == Draft || header.status == Confirmed then
          var updated := header.(enforcement := patch.enforcement.value);
          Effect(Ok(updated), db.(budgets := db.budgets[b := updated]))
        else Effect(Err(EnforcementLocked), db)
      else
        var updated := Patched(header, patch);
        if updated.dateFrom > updated.dateTo then Effect(Err(BadDateRange), db)
        else if header.status != Draft then Effect(Err(Mapped(NoRow)), db)
        else if !BudgetRowOk(updated) then Effect(Err(Mapped(BrokenCheck)), db)
        else Effect(Ok(updated), db.(budgets := db.budgets[b := updated]))
  }

  function AddLineEffect(db: Db, gl: Gl, b: BudgetId, id: LineId, line: NewBudgetLine): Effect<BudgetLine> {
    if !LiveBudget(db, b) then Effect(Err(NotFound), db)
    else if db.budgets[b].status != Draft then Effect(Err(NotDraft), db)
    else match Refusal(db, gl, db.budgets[b], b, line)
      case Some(e) => Effect(Err(e), db)
      case None =>
        match InsertLine(gl, db, b, id, line)
        case Err(e) => Effect(Err(e), db)
        case Ok(tx) => assert id in tx.lines; Effect(Ok(tx.lines[id]), tx)
  }

  function UpdateLineEffect(db: Db, b: BudgetId, l: LineId, planned: real, notes: Option<string>): Effect<BudgetLine> {
    if planned <= 0.0 then Effect(Err(InvalidAmount), db)
    else if !LiveBudget(db, b) then Effect(Err(NotFound), db)
    else if db.budgets[b].status != Draft then Effect(Err(NotDraft), db)
    else if !LiveLine(db, l) || db.lines[l].budget != b then Effect(Err(LineNotFound), db)
    else
      var updated := db.lines[l].(planned := ToCents(planned), notes := notes);
      if !LineRowOk(updated) then Effect(Err(Mapped(BrokenCheck)), db)
      else Effect(Ok(updated), db.(lines := db.lines[l := updated]))
  }

  function DeleteLineEffect(db: Db, b: BudgetId, l: LineId): Effect<()> {
    if !LiveBudget(db, b) then Effect(Err(NotFound), db)
    else if db.budgets[b].status != Draft then Effect(Err(NotDraft), db)
    else if !LiveLine(db, l) || db.lines[l].budget != b then Effect(Err(LineNotFound), db)
    else Effect(Ok(()), db.(lines := db.lines[l := db.lines[l].(deleted := true)]))
  }

  // ── lifecycle ──────────────────────────────────────────────────────────────

  datatype LifecycleVerb = ToConfirmed | ToClosed | ToCancelled

  function AllowedFrom(v: LifecycleVerb): set<Status> {
    match v
    case ToConfirmed => {Draft}
    case ToClosed => {Confirmed}
    case ToCancelled => {Draft, Confirmed}
  }

  function Target(v: LifecycleVerb): Status {
    match v
    case ToConfirmed => Confirmed
    case ToClosed => Closed
    case ToCancelled => Cancelled
  }

  function WithStatus(db: Db, b: BudgetId, s: Status): Db
    requires b in db.budgets
  {
    db.(budgets := db.budgets[b := db.budgets[b].(status := s)])
  }

  /** The shared verb behind close and cancel. */
  function TransitionEffect(db: Db, b: BudgetId, v: LifecycleVerb): Effect<Budget> {
    if !LiveBudget(db, b) then Effect(Err(NotFound), db)
    else if db.budgets[b].status !in AllowedFrom(v) then Effect(Err(InvalidTransition(db.budgets[b].status)), db)
    else
      var tx := WithStatus(db, b, Target(v));
      Effect(Ok(tx.budgets[b]), tx)
  }

  /** A stored line, offered again to the guards. */
  function Candidate(line: BudgetLine): NewBudgetLine {
    NewBudgetLine(line.account, line.costCenter, line.period, line.planned, line.notes)
  }

  function Candidates(db: Db, ids: seq<LineId>): seq<NewBudgetLine>
    requires forall l | l in ids :: l in db.lines
  {
    seq(|ids|, i requires 0 <= i < |ids| => assert ids[i] in ids; Candidate(db.lines[ids[i]]))
  }

  /** Every guard of confirm holds. */
  predicate Confirmable(db: Db, gl: Gl, b: BudgetId) {
    && LiveBudget(db, b)
    && db.budgets[b].status == Draft
    && LiveLinesOf(db, b) != {}
    && forall l | l in LiveLinesOf(db, b) :: Refusal(db, gl, db.budgets[b], b, Candidate(db.lines[l])).None?
  }

  /** A possible outcome of confirm: the lines are asked in an order the query leaves partly open,
      so which line's refusal is reported may vary, but whether there is one does not. */
  ghost predicate IsConfirm(db: Db, gl: Gl, b: BudgetId, effect: Effect<Budget>) {
    if !LiveBudget(db, b) then effect == Effect(Err(NotFound), db)
    else if db.budgets[b].status != Draft then effect == Effect(Err(InvalidTransition(db.budgets[b].status)), db)
    else if LiveLinesOf(db, b) == {} then effect == Effect(Err(NoLines), db)
    else if Confirmable(db, gl, b) then effect == TransitionEffect(db, b, ToConfirmed)
    else
      && effect.result.Err?
      && effect.db == db
      && exists ids: seq<LineId> ::
           && IsLineOrder(db, b, ids)
           && (forall l | l in ids :: l in db.lines)
           && FirstRefusal(db, gl, db.budgets[b], b, Candidates(db, ids)) == Some(effect.result.error)
  }

  lemma {:induction false} NoRefusal(db: Db, gl: Gl, header: Budget, own: BudgetId, lines: seq<NewBudgetLine>)
    ensures FirstRefusal(db, gl, header, own, lines).None? <==> forall line | line in lines :: Refusal(db, gl, header, own, line).None?
  {
    if lines != [] {
      assert lines == [lines[0]] + lines[1..];
      NoRefusal(db, gl, header, own, lines[1..]);
    }
  }

  lemma CandidatesAreLines(db: Db, b: BudgetId, ids: seq<LineId>)
    requires IsLineOrder(db, b, ids)
    ensures forall l | l in ids :: l in db.lines
    ensures forall l | l in LiveLinesOf(db, b) :: Candidate(db.lines[l]) in Candidates(db, ids)
    ensures forall c | c in Candidates(db, ids) :: exists l | l in LiveLinesOf(db, b) :: c == Candidate(db.lines[l])
  {
    assert forall l | l in ids :: l in LiveLinesOf(db, b);
    var cs := Candidates(db, ids);
    forall l | l in LiveLinesOf(db, b) ensures Candidate(db.lines[l]) in cs {
      var i :| 0 <= i < |ids| && ids[i] == l;
      assert cs[i] == Candidate(db.lines[l]);
    }
    forall c | c in cs ensures exists l | l in LiveLinesOf(db, b) :: c == Candidate(db.lines[l]) {
      var i :| 0 <= i < |cs| && cs[i] == c;
      assert ids[i] in ids;
    }
  }

  // ── one datatype for all the verbs ─────────────────────────────────────────

  datatype Verb =
    | Create(id: BudgetId, lineIds: seq<LineId>, input: NewBudget)
    | Patch(budget: BudgetId, patch: BudgetPatch)
    | AddLine(budget: BudgetId, line: LineId, newLine: NewBudgetLine)
    | UpdateLine(budget: BudgetId, line: LineId, planned: real, notes: Option<string>)
    | DeleteLine(budget: BudgetId, line: LineId)
    | Confirm(budget: BudgetId)
    | Close(budget: BudgetId)
    | Cancel(budget: BudgetId)

  /** Every line to create has an id drawn for it. */
  predicate Drawn(v: Verb) {
    v.Create? ==> |v.lineIds| == |v.input.lines|
  }

  function TargetBudget(v: Verb): BudgetId {
    if v.Create? then v.id else v.budget
  }

  /** The tables after the verb, run atomically. */
  function Apply(db: Db, gl: Gl, v: Verb): Db
    requires Drawn(v)
  {
    match v
    case Create(id, lineIds, input) => CreateEffect(db, gl, id, lineIds, input).db
    case Patch(b, patch) => PatchEffect(db, b, patch).db
    case AddLine(b, id, line) => AddLineEffect(db, gl, b, id, line).db
    case UpdateLine(b, l, planned, notes) => UpdateLineEffect(db, b, l, planned, notes).db
    case DeleteLine(b, l) => DeleteLineEffect(db, b, l).db
    case Confirm(b) => if Confirmable(db, gl, b) then WithStatus(db, b, Confirmed) else db
    case Close(b) => TransitionEffect(db, b, ToClosed).db
    case Cancel(b) => TransitionEffect(db, b, ToCancelled).db
  }

  predicate Succeeds(db: Db, gl: Gl, v: Verb)
    requires Drawn(v)
  {
    match v
    case Create(id, lineIds, input) => CreateEffect(db, gl, id, lineIds, input).result.Ok?
    case Patch(b, patch) => PatchEffect(db, b, patch).result.Ok?
    case AddLine(b, id, line) => AddLineEffect(db, gl, b, id, line).result.Ok?
    case UpdateLine(b, l, planned, notes) => UpdateLineEffect(db, b, l, planned, notes).result.Ok?
    case DeleteLine(b, l) => DeleteLineEffect(db, b, l).result.Ok?
    case Confirm(b) => Confirmable(db, gl, b)
    case Close(b) => TransitionEffect(db, b, ToClosed).result.Ok?
    case Cancel(b) => TransitionEffect(db, b, ToCancelled).result.Ok?
  }

  /** A possible answer of a verb: its tables, or its error. */
  ghost predicate IsAnswer(db: Db, gl: Gl, v: Verb, r: Result<Db, WorkflowError>)
    requires Drawn(v)
  {
    match v
    case Create(id, lineIds, input) => r == AnswerOf(CreateEffect(db, gl, id, lineIds, input))
    case Patch(b, patch) => r == AnswerOf(PatchEffect(db, b, patch))
    case AddLine(b, id, line) => r == AnswerOf(AddLineEffect(db, gl, b, id, line))
    case UpdateLine(b, l, planned, notes) => r == AnswerOf(UpdateLineEffect(db, b, l, planned, notes))
    case DeleteLine(b, l) => r == AnswerOf(DeleteLineEffect(db, b, l))
    case Confirm(b) => exists e | IsConfirm(db, gl, b, e) :: r == AnswerOf(e)
    case Close(b) => r == AnswerOf(TransitionEffect(db, b, ToClosed))
    case Cancel(b) => r == AnswerOf(TransitionEffect(db, b, ToCancelled))
  }

  function AnswerOf<T>(e: Effect<T>): Result<Db, WorkflowError> {
    match e.result
    case Ok(_) => Ok(e.db)
    case Err(error) => Err(error)
  }

  /** All or nothing: a verb that ends in an error, at whatever guard or row, leaves both tables as they were. */
  lemma FailedVerbWritesNothing(db: Db, gl: Gl, v: Verb)
    requires Drawn(v) && !Succeeds(db, gl, v)
    ensures Apply(db, gl, v) == db
  {
  }

  // ── what a successful create stores ────────────────────────────────────────

  predicate Keeps(before: map<LineId, BudgetLine>, after: map<LineId, BudgetLine>) {
    forall l | l in before :: l in after && after[l] == before[l]
  }

  /** The row of an input line is stored: year and month minted from its period, inside the CHECK constraints. */
  predicate Stored(gl: Gl, lines: map<LineId, BudgetLine>, b: BudgetId, id: LineId, line: NewBudgetLine) {
    && id in lines
    && FindPeriod(gl, line.period).Some?
    && lines[id] == NewRow(FindPeriod(gl, line.period).value, b, line)
    && LineRowOk(lines[id])
  }

  /** Between the tables there is exactly one stored row more per input line. */
  ghost predicate RowsInserted(gl: Gl, tx: Db, after: Db, b: BudgetId, ids: seq<LineId>, lines: seq<NewBudgetLine>)
    requires |ids| == |lines|
  {
    && after.budgets == tx.budgets
    && after.lines.Keys == tx.lines.Keys + (set l | l in ids)
    && Keeps(tx.lines, after.lines)
    && forall i | 0 <= i < |ids| :: Stored(gl, after.lines, b, ids[i], lines[i])
  }

  /** The rows of a batch insert, told without running it. */
  lemma {:induction false} InsertedRows(gl: Gl, tx: Db, b: BudgetId, ids: seq<LineId>, lines: seq<NewBudgetLine>)
    requires |ids| == |lines|
    requires InsertLines(gl, tx, b, ids, lines).Ok?
    ensures RowsInserted(gl, tx, InsertLines(gl, tx, b, ids, lines).value, b, ids, lines)
    decreases |lines|
  {
    if lines != [] {
      var next := InsertLine(gl, tx, b, ids[0], lines[0]).value;
      InsertedRows(gl, next, b, ids[1..], lines[1..]);
      OneMoreInserted(gl, tx, next, InsertLines(gl, next, b, ids[1..], lines[1..]).value, b, ids, lines);
    }
  }

  lemma OneMoreInserted(gl: Gl, tx: Db, next: Db, after: Db, b: BudgetId, ids: seq<LineId>, lines: seq<NewBudgetLine>)
    requires |ids| == |lines| > 0
    requires InsertLine(gl, tx, b, ids[0], lines[0]) == Ok(next)
    requires RowsInserted(gl, next, after, b, ids[1..], lines[1..])
    ensures RowsInserted(gl, tx, after, b, ids, lines)
  {
    assert ids == [ids[0]] + ids[1..];
    assert Stored(gl, next.lines, b, ids[0], lines[0]);
    forall i | 0 <= i < |ids| ensures Stored(gl, after.lines, b, ids[i], lines[i]) {
      if i > 0 {
        assert Stored(gl, after.lines, b, ids[1..][i - 1], lines[1..][i - 1]);
      }
    }
  }

  /** What a batch insert needs of the database: distinct ids, none of them taken, and rows inside the constraints. */
  predicate Insertable(gl: Gl, tx: Db, ids: seq<LineId>, lines: seq<NewBudgetLine>)
    requires |ids| == |lines|
  {
    && (forall i, j | 0 <= i < j < |ids| :: ids[i] != ids[j])
    && (forall i | 0 <= i < |ids| :: ids[i] !in tx.lines && RowFits(gl, lines[i]))
  }

  /** The period is there to mint from, and the row is inside the CHECKs once its amount is rounded to cents. */
  predicate RowFits(gl: Gl, line: NewBudgetLine) {
    && gl.wired
    && line.period in gl.periods
    && var period := gl.periods[line.period];
       && !period.deleted
       && 2020 <= period.fiscalYear <= 2100
       && (period.fiscalMonth.Some? ==> 1 <= period.fiscalMonth.value <= 12)
       && AmountFits(line.planned)
       && (line.notes.Some? ==> |line.notes.value| <= 500)
  }

  /** Not negative once rounded to cents, and at most sixteen digits before the point. */
  predicate AmountFits(planned: real) {
    -0.005 < planned < 9999999999999999.995
  }

  lemma RoundedFits(x: real)
    ensures 0.0 <= ToCents(x) < 10000000000000000.0 <==> AmountFits(x)
  {
    var up, down := (x * 100.0 + 0.5).Floor, (-x * 100.0 + 0.5).Floor;
    if x < 0.0 {
      assert ToCents(x) * 100.0 == (-down) as real;
    } else {
      assert ToCents(x) * 100.0 == up as real;
      assert up < 1000000000000000000 <==> x * 100.0 + 0.5 < 1000000000000000000.0;
    }
  }

  lemma {:induction false} InsertsExactly(gl: Gl, tx: Db, b: BudgetId, ids: seq<LineId>, lines: seq<NewBudgetLine>)
    requires |ids| == |lines|
    ensures InsertLines(gl, tx, b, ids, lines).Ok? <==> Insertable(gl, tx, ids, lines)
    decreases |lines|
  {
    if lines != [] {
      var restIds, rest := ids[1..], lines[1..];
      assert forall i | 0 <= i < |rest| :: restIds[i] == ids[i + 1] && rest[i] == lines[i + 1];
      RoundedFits(lines[0].planned);
      var first := InsertLine(gl, tx, b, ids[0], lines[0]);
      if first.Ok? {
        InsertsExactly(gl, first.value, b, restIds, rest);
        if Insertable(gl, first.value, restIds, rest) {
          forall i | 0 < i < |ids| ensures ids[i] != ids[0] && ids[i] !in tx.lines && RowFits(gl, lines[i]) {
            assert restIds[i - 1] !in first.value.lines && RowFits(gl, rest[i - 1]);
          }
          forall i, j | 0 <= i < j < |ids| ensures ids[i] != ids[j] {
            if i > 0 {
              assert restIds[i - 1] != restIds[j - 1];
            }
          }
        }
      }
    }
  }

  /** One header and one row per input line, in order, are there now; every other row is as it was. */
  ghost predicate BudgetStored(db: Db, after: Db, gl: Gl, id: BudgetId, lineIds: seq<LineId>, input: NewBudget)
    requires |lineIds| == |input.lines|
  {
    && id in after.budgets
    && after.budgets == db.budgets[id := after.budgets[id]]
    && HeaderAsked(input, after.budgets[id])
    && after.lines.Keys == db.lines.Keys + (set l | l in lineIds)
    && Keeps(db.lines, after.lines)
    && (forall i | 0 <= i < |lineIds| :: lineIds[i] in after.lines && RowOf(gl, id, input.lines[i], after.lines[lineIds[i]]))
  }

  /** A live draft that says what was asked for, field by field. */
  predicate HeaderAsked(input: NewBudget, header: Budget) {
    && header.code == input.code
    && header.name == input.name
    && header.description == input.description
    && header.fiscalYear == input.fiscalYear
    && header.dateFrom == input.dateFrom
    && header.dateTo == input.dateTo
    && header.enforcement == input.enforcement
    && header.status == Draft
    && !header.deleted
  }

  /** The stored row says what was asked for, to the nearest cent, in its period's year and month. */
  predicate RowOf(gl: Gl, b: BudgetId, line: NewBudgetLine, row: BudgetLine) {
    && row.budget == b
    && row.account == line.account
    && row.costCenter == line.costCenter
    && row.period == line.period
    && row.notes == line.notes
    && !row.deleted
    && line.period in gl.periods
    && row.fiscalYear == gl.periods[line.period].fiscalYear
    && row.fiscalMonth == gl.periods[line.period].fiscalMonth
    && NearestCent(line.planned, row.planned)
  }

  /** A whole number of cents, within half a cent; a tie goes away from zero. */
  predicate NearestCent(asked: real, stored: real) {
    && (stored * 100.0).Floor as real == stored * 100.0
    && if asked < 0.0 then -0.005 <= stored - asked < 0.005 else -0.005 < stored - asked <= 0.005
  }

  lemma StoresNearestCent(x: real)
    ensures NearestCent(x, ToCents(x))
  {
    var up, down := (x * 100.0 + 0.5).Floor, (-x * 100.0 + 0.5).Floor;
    assert ToCents(x) * 100.0 == if x < 0.0 then (-down) as real else up as real;
  }

  /** A successful create adds exactly one draft header and exactly one row per input line, in order,
      each with the year and month of its period; every other row is untouched. */
  lemma CreateAddsExactly(db: Db, gl: Gl, id: BudgetId, lineIds: seq<LineId>, input: NewBudget)
    requires |lineIds| == |input.lines|
    requires CreateEffect(db, gl, id, lineIds, input).result.Ok?
    ensures var after := CreateEffect(db, gl, id, lineIds, input).db;
            && id !in db.budgets
            && Insertable(gl, db, lineIds, input.lines)
            && BudgetStored(db, after, gl, id, lineIds, input)
            && CreateEffect(db, gl, id, lineIds, input).result == Ok(after.budgets[id])
            && (forall i | 0 <= i < |lineIds| :: Stored(gl, after.lines, id, lineIds[i], input.lines[i]))
            && forall line | line in input.lines :: Refusal(db, gl, DraftOf(input), id, line).None?
  {
    InsertedRows(gl, db.(budgets := db.budgets[id := DraftOf(input)]), id, lineIds, input.lines);
    StoredAreAsked(gl, CreateEffect(db, gl, id, lineIds, input).db.lines, id, lineIds, input.lines);
    InsertsExactly(gl, db.(budgets := db.budgets[id := DraftOf(input)]), id, lineIds, input.lines);
    NoRefusal(db, gl, DraftOf(input), id, input.lines);
  }

  lemma StoredAreAsked(gl: Gl, rows: map<LineId, BudgetLine>, b: BudgetId, ids: seq<LineId>, lines: seq<NewBudgetLine>)
    requires |ids| == |lines| && forall i | 0 <= i < |ids| :: Stored(gl, rows, b, ids[i], lines[i])
    ensures forall i | 0 <= i < |ids| :: ids[i] in rows && RowOf(gl, b, lines[i], rows[ids[i]])
  {
    forall i | 0 <= i < |ids| ensures ids[i] in rows && RowOf(gl, b, lines[i], rows[ids[i]]) {
      assert Stored(gl, rows, b, ids[i], lines[i]);
      StoresNearestCent(lines[i].planned);
    }
  }

  /** A line as the guard matrix wants it: positive amount, postable account, usable cost center, and a live
      period inside the header's year and dates. */
  predicate MeetsMasters(gl: Gl, fiscalYear: int, dateFrom: Date, dateTo: Date, line: NewBudgetLine) {
    && line.planned > 0.0
    && gl.wired
    && GoodAccount(gl, line.account)
    && (line.costCenter.Some? ==> GoodCostCenter(gl, line.costCenter.value))
    && GoodPeriod(gl, line.period, fiscalYear, dateFrom, dateTo)
  }

  /** An existing, live, active detail account that is no header. */
  predicate GoodAccount(gl: Gl, a: AccountId) {
    a in gl.accounts && gl.accounts[a].isDetail && !gl.accounts[a].isHeader && gl.accounts[a].active && !gl.accounts[a].deleted
  }

  /** An existing, live, active cost center that is no group. */
  predicate GoodCostCenter(gl: Gl, c: CostCenterId) {
    c in gl.costCenters && !gl.costCenters[c].isGroup && gl.costCenters[c].active && !gl.costCenters[c].deleted
  }

  /** An existing, live period of the year, inside the dates. */
  predicate GoodPeriod(gl: Gl, p: PeriodId, fiscalYear: int, dateFrom: Date, dateTo: Date) {
    && p in gl.periods
    && !gl.periods[p].deleted
    && gl.periods[p].fiscalYear == fiscalYear
    && dateFrom <= gl.periods[p].start
    && gl.periods[p].end <= dateTo
  }

  /** No live line of another budget is on the account, cost center and period of the line. */
  ghost predicate KeyFree(db: Db, line: NewBudgetLine, own: BudgetId) {
    forall l |
      && l in db.lines
      && !db.lines[l].deleted
      && db.lines[l].account == line.account
      && db.lines[l].costCenter == line.costCenter
      && db.lines[l].period == line.period
    :: db.lines[l].budget == own
  }

  lemma RefusalExactly(db: Db, gl: Gl, header: Budget, own: BudgetId, line: NewBudgetLine)
    ensures Refusal(db, gl, header, own, line).None? <==>
              && MeetsMasters(gl, header.fiscalYear, header.dateFrom, header.dateTo, line)
              && KeyFree(db, line, own)
  {
  }

  /** Each guard answers its own error, for the line's own account, cost center and period, and the first to fail decides. */
  lemma RefusalNames(db: Db, gl: Gl, header: Budget, own: BudgetId, line: NewBudgetLine, e: WorkflowError)
    ensures Refusal(db, gl, header, own, line) == Some(e) <==>
              if line.planned <= 0.0 then e == InvalidAmount
              else if !gl.wired then e == Internal
              else if !GoodAccount(gl, line.account) then e == AccountMissing(line.account)
              else if line.costCenter.Some? && !GoodCostCenter(gl, line.costCenter.value) then e == CostCenterInvalid(line.costCenter.value)
              else if !GoodPeriod(gl, line.period, header.fiscalYear, header.dateFrom, header.dateTo) then e == PeriodInvalid(line.period)
              else e == CoverageConflict && !KeyFree(db, line, own)
  {
  }

  /** Of several lines, the first that is refused decides. */
  lemma {:induction false} FirstRefusalIs(db: Db, gl: Gl, header: Budget, own: BudgetId, lines: seq<NewBudgetLine>, e: WorkflowError)
    ensures FirstRefusal(db, gl, header, own, lines) == Some(e) <==>
              exists i | 0 <= i < |lines| ::
                && Refusal(db, gl, header, own, lines[i]) == Some(e)
                && forall j | 0 <= j < i :: Refusal(db, gl, header, own, lines[j]).None?
  {
    if lines != [] {
      var rest := lines[1..];
      FirstRefusalIs(db, gl, header, own, rest, e);
      if Refusal(db, gl, header, own, lines[0]).None? {
        if FirstRefusal(db, gl, header, own, rest) == Some(e) {
          var i :| 0 <= i < |rest| && Refusal(db, gl, header, own, rest[i]) == Some(e)
                   && forall j | 0 <= j < i :: Refusal(db, gl, header, own, rest[j]).None?;
          assert forall j | 0 <= j < i + 1 :: j > 0 ==> lines[j] == rest[j - 1];
          assert lines[i + 1] == rest[i];
        }
        if i :| 0 <= i < |lines| && Refusal(db, gl, header, own, lines[i]) == Some(e)
                && forall j | 0 <= j < i :: Refusal(db, gl, header, own, lines[j]).None? {
          assert rest[i - 1] == lines[i] && forall j | 0 <= j < i - 1 :: rest[j] == lines[j + 1];
        }
      }
    }
  }

  /** The guard matrix and the database's own constraints, for a new budget. */
  ghost predicate CanCreate(db: Db, gl: Gl, id: BudgetId, lineIds: seq<LineId>, input: NewBudget)
    requires |lineIds| == |input.lines|
  {
    && input.dateFrom <= input.dateTo
    && (forall b | b in db.budgets && !db.budgets[b].deleted && db.budgets[b].code == input.code :: b == id)
    && (forall line | line in input.lines ::
          MeetsMasters(gl, input.fiscalYear, input.dateFrom, input.dateTo, line) && KeyFree(db, line, id))
    && HeaderFits(input.code, input.name, input.description, input.fiscalYear)
    && id !in db.budgets
    && Insertable(gl, db, lineIds, input.lines)
  }

  /** The CHECKs of a header. */
  predicate HeaderFits(code: string, name: string, description: Option<string>, fiscalYear: int) {
    && (exists c | c in code :: c != ' ') && |code| <= 30
    && (exists c | c in name :: c != ' ') && |name| <= 100
    && (description.Some? ==> |description.value| <= 500)
    && 2020 <= fiscalYear <= 2100
  }

  lemma CreateSucceedsExactly(db: Db, gl: Gl, id: BudgetId, lineIds: seq<LineId>, input: NewBudget)
    requires |lineIds| == |input.lines|
    ensures CreateEffect(db, gl, id, lineIds, input).result.Ok? <==> CanCreate(db, gl, id, lineIds, input)
  {
    var header := DraftOf(input);
    NoRefusal(db, gl, header, id, input.lines);
    forall line | line in input.lines
      ensures Refusal(db, gl, header, id, line).None? <==>
                MeetsMasters(gl, input.fiscalYear, input.dateFrom, input.dateTo, line) && KeyFree(db, line, id)
    {
      RefusalExactly(db, gl, header, id, line);
    }
    InsertsExactly(gl, db.(budgets := db.budgets[id := header]), id, lineIds, input.lines);
  }

  /** The guard matrix of confirm: a live draft with a live line, every one of which the guards let through. */
  ghost predicate CanConfirm(db: Db, gl: Gl, b: BudgetId) {
    && b in db.budgets
    && !db.budgets[b].deleted
    && db.budgets[b].status == Draft
    && (exists l | l in db.lines :: !db.lines[l].deleted && db.lines[l].budget == b)
    && (forall l | l in db.lines && !db.lines[l].deleted && db.lines[l].budget == b ::
          var row, header := db.lines[l], db.budgets[b];
          var line := NewBudgetLine(row.account, row.costCenter, row.period, row.planned, row.notes);
          MeetsMasters(gl, header.fiscalYear, header.dateFrom, header.dateTo, line) && KeyFree(db, line, b))
  }

  lemma ConfirmSucceedsExactly(db: Db, gl: Gl, b: BudgetId)
    ensures Confirmable(db, gl, b) <==> CanConfirm(db, gl, b)
  {
    if LiveBudget(db, b) {
      var header := db.budgets[b];
      forall l | l in LiveLinesOf(db, b)
        ensures Refusal(db, gl, header, b, Candidate(db.lines[l])).None? <==>
                  && MeetsMasters(gl, header.fiscalYear, header.dateFrom, header.dateTo, Candidate(db.lines[l]))
                  && KeyFree(db, Candidate(db.lines[l]), b)
      {
        RefusalExactly(db, gl, header, b, Candidate(db.lines[l]));
      }
      assert forall l | l in db.lines && !db.lines[l].deleted && db.lines[l].budget == b :: l in LiveLinesOf(db, b);
    }
  }

  /** A positive amount can be stored as zero: exactly when it is below half a cent. */
  lemma StoredAmountZero(x: real)
    requires x > 0.0
    ensures ToCents(x) == 0.0 <==> x < 0.005
    ensures ToCents(x) >= 0.0
  {
  }

  /** Confirm's outcome is decided, whichever order the lines are asked in. */
  lemma ConfirmDecided(db: Db, gl: Gl, b: BudgetId, effect: Effect<Budget>)
    requires IsConfirm(db, gl, b, effect)
    ensures effect.result.Ok? <==> Confirmable(db, gl, b)
    ensures effect.db == Apply(db, gl, Confirm(b))
  {
  }
}
