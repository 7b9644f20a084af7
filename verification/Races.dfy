/** The verbs as the database interleaves them: each read or check is a step of its own,
    and so is each write with its commit; steps of any number of verbs mix freely. The
    masters may change before every step. A verb may also be abandoned at any point. */
module Races {
  import opened BudgetTypes
  import opened BudgetReads
  import opened BudgetWorkflow
  import opened AtomicRuns

  type TaskId = nat

  /** The guards of one line, in the order they are asked; each is one statement, and without a cost center
      the second asks nothing. */
  datatype Check = AskAccount | AskCostCenter | AskPeriod | AskKey

  /** A verb in progress: what it has read so far, how far its checks have come, and the rows only it can see. */
  datatype Task =
    | Creating(id: BudgetId, lineIds: seq<LineId>, input: NewBudget, next: nat, ask: Check)
    | Inserting(id: BudgetId, lineIds: seq<LineId>, input: NewBudget, mine: map<LineId, BudgetLine>, next: nat, minted: Option<Period>)
    | Adding(budget: BudgetId, header: Budget, line: LineId, newLine: NewBudgetLine, ask: Check)
    | Minting(budget: BudgetId, line: LineId, newLine: NewBudgetLine, minted: Option<Period>)
    | Updating(budget: BudgetId, line: LineId, planned: real, notes: Option<string>)
    | Deleting(budget: BudgetId, line: LineId)
    | Patching(budget: BudgetId, header: Budget, patch: BudgetPatch)
    | ReadingLines(budget: BudgetId, header: Budget)
    | Confirming(budget: BudgetId, header: Budget, rows: seq<BudgetLine>, next: nat, ask: Check)
    | Transitioning(budget: BudgetId, verb: LifecycleVerb, seen: Status)

  function BudgetOf(k: Task): BudgetId {
    if k.Creating? || k.Inserting? then k.id else k.budget
  }

  /** A won compare-and-set. */
  datatype Change = Change(budget: BudgetId, verb: LifecycleVerb, seen: Status)

  datatype System = System(db: Db, tasks: map<TaskId, Task>, ever: set<BudgetId>, log: seq<Change>)

  /** `order` is the order in which a confirm's line query answers; other steps ignore it. */
  datatype Action =
    | Start(task: TaskId, verb: Verb)
    | Advance(task: TaskId, gl: Gl, order: seq<LineId>)
    | Abandon(task: TaskId)

  datatype Outcome =
    | Continue(task: Task)
    | Fail(error: WorkflowError)
    | Commit(db: Db)
    | Win(after: Db, change: Change)

  /** A verb's first read: refused at once, or a task. */
  function Begin(db: Db, v: Verb): Result<Task, WorkflowError> {
    match v
    case Create(id, lineIds, input) =>
      if input.dateFrom > input.dateTo then Err(BadDateRange)
      else if CodeInUse(db, input.code, id) then Err(CodeTaken)
      else Ok(Creating(id, lineIds, input, 0, AskAccount))
    case Patch(b, patch) =>
      if !LiveBudget(db, b) then Err(NotFound)
      else
        var header := db.budgets[b];
        if WantsFrozenFields(patch) && header.status != Draft then Err(NotDraft)
        else if patch.enforcement.Some? then
          if header.status == Draft || header.status == Confirmed then Ok(Patching(b, header, patch)) else Err(EnforcementLocked)
        else if Or(patch.dateFrom, header.dateFrom) > Or(patch.dateTo, header.dateTo) then Err(BadDateRange)
        else Ok(Patching(b, header, patch))
    case AddLine(b, l, line) =>
      if InDraft(db, b) then Ok(Adding(b, db.budgets[b], l, line, AskAccount)) else Err(NoDraft(db, b))
    case UpdateLine(b, l, planned, notes) =>
      if planned <= 0.0 then Err(InvalidAmount)
      else if InDraft(db, b) then Ok(Updating(b, l, planned, notes)) else Err(NoDraft(db, b))
    case DeleteLine(b, l) =>
      if InDraft(db, b) then Ok(Deleting(b, l)) else Err(NoDraft(db, b))
    case Confirm(b) =>
      if !LiveBudget(db, b) then Err(NotFound)
      else if db.budgets[b].status != Draft then Err(InvalidTransition(db.budgets[b].status))
      else Ok(ReadingLines(b, db.budgets[b]))
    case Close(b) => BeginTransition(db, b, ToClosed)
    case Cancel(b) => BeginTransition(db, b, ToCancelled)
  }

  function NoDraft(db: Db, b: BudgetId): WorkflowError {
    if LiveBudget(db, b) then NotDraft else NotFound
  }

  function BeginTransition(db: Db, b: BudgetId, v: LifecycleVerb): Result<Task, WorkflowError> {
    if !LiveBudget(db, b) then Err(NotFound)
    else if db.budgets[b].status !in AllowedFrom(v) then Err(InvalidTransition(db.budgets[b].status))
    else Ok(Transitioning(b, v, db.budgets[b].status))
  }

  /** One guard of one line. */
  function Asked(db: Db, gl: Gl, header: Budget, own: BudgetId, line: NewBudgetLine, ask: Check): Option<WorkflowError> {
    match ask
    case AskAccount => AccountRefusal(gl, line)
    case AskCostCenter => CostCenterRefusal(gl, line)
    case AskPeriod => PeriodRefusal(gl, header, line)
    case AskKey => if KeyTaken(db, KeyOfNew(line), own) then Some(CoverageConflict) else None
  }

  /** The next guard of the same line, or the first of the line after it. */
  function Following(ask: Check): Check {
    match ask
    case AskAccount => AskCostCenter
    case AskCostCenter => AskPeriod
    case AskPeriod => AskKey
    case AskKey => AskAccount
  }

  function LineAfter(next: nat, ask: Check): nat {
    if ask == AskKey then next + 1 else next
  }

  /** The compare-and-set: it wins only while the row still has the status that was read. */
  function CompareAndSet(db: Db, b: BudgetId, v: LifecycleVerb, seen: Status, lost: WorkflowError): Outcome {
    if LiveBudget(db, b) && db.budgets[b].status == seen
    then Win(WithStatus(db, b, Target(v)), Change(b, v, seen)) else Fail(lost)
  }

  /** The header UPDATE writes dates computed from the header as it was read, onto the row as it is now;
      the enforcement UPDATE is not guarded by status at all. */
  function PatchRow(db: Db, b: BudgetId, header: Budget, patch: BudgetPatch): Outcome {
    if !LiveBudget(db, b) then Fail(Mapped(NoRow))
    else
      var row := db.budgets[b];
      if patch.enforcement.Some? then
        Commit(db.(budgets := db.budgets[b := row.(enforcement := patch.enforcement.value)]))
      else
        var updated := Patched(row, patch).(dateFrom := Or(patch.dateFrom, header.dateFrom), dateTo := Or(patch.dateTo, header.dateTo));
        if row.status != Draft then Fail(Mapped(NoRow))
        else if !BudgetRowOk(updated) then Fail(Mapped(BrokenCheck))
        else Commit(db.(budgets := db.budgets[b := updated]))
  }

  /** What a create in progress sees: the committed tables and its own rows. */
  function View(db: Db, id: BudgetId, input: NewBudget, mine: map<LineId, BudgetLine>): Db {
    Db(db.budgets[id := DraftOf(input)], db.lines + mine)
  }

  /** A create past its guards, its header inserted: read the period of the next line, insert the line; commit at the end. */
  function InsertNext(db: Db, k: Task, gl: Gl): Outcome
    requires k.Inserting?
  {
    var id, input := k.id, k.input;
    if k.next < |input.lines| && k.next < |k.lineIds| then
      var l, line := k.lineIds[k.next], input.lines[k.next];
      match k.minted
      case None =>
        (match PeriodToMint(gl, line.period)
         case Err(e) => Fail(e)
         case Ok(period) => Continue(Inserting(id, k.lineIds, input, k.mine, k.next, Some(period))))
      case Some(period) =>
        (match InsertRow(View(db, id, input, k.mine), l, NewRow(period, id, line))
         case Err(e) => Fail(e)
         case Ok(_) => Continue(Inserting(id, k.lineIds, input, k.mine[l := NewRow(period, id, line)], k.next + 1, None)))
    else if id in db.budgets then Fail(Mapped(Duplicate(BudgetsTable)))
    else if exists l | l in k.mine :: l in db.lines then Fail(Mapped(Duplicate(LinesTable)))
    else Commit(View(db, id, input, k.mine))
  }

  /** The next statement of a verb in progress. */
  ghost function Next(db: Db, k: Task, gl: Gl, order: seq<LineId>): Outcome {
    match k
    case Creating(id, lineIds, input, next, ask) =>
      if next < |input.lines| then
        (match Asked(db, gl, DraftOf(input), id, input.lines[next], ask)
         case Some(e) => Fail(e)
         case None => Continue(Creating(id, lineIds, input, LineAfter(next, ask), Following(ask))))
      else
        (match InsertHeader(db, id, DraftOf(input))
         case Err(e) => Fail(e)
         case Ok(_) => Continue(Inserting(id, lineIds, input, map[], 0, None)))
    case Inserting(_, _, _, _, _, _) => InsertNext(db, k, gl)
    case Adding(b, header, l, line, ask) =>
      (match Asked(db, gl, header, b, line, ask)
       case Some(e) => Fail(e)
       case None => if ask == AskKey then Continue(Minting(b, l, line, None)) else Continue(Adding(b, header, l, line, Following(ask))))
    case Minting(b, l, line, None) =>
      (match PeriodToMint(gl, line.period)
       case Err(e) => Fail(e)
       case Ok(period) => Continue(Minting(b, l, line, Some(period))))
    case Minting(b, l, line, Some(period)) =>
      (match InsertRow(db, l, NewRow(period, b, line))
       case Err(e) => Fail(e)
       case Ok(tx) => Commit(tx))
    case Updating(b, l, planned, notes) =>
      if !LiveLine(db, l) || db.lines[l].budget != b then Fail(LineNotFound)
      else
        var updated := db.lines[l].(planned := ToCents(planned), notes := notes);
        if LineRowOk(updated) then Commit(db.(lines := db.lines[l := updated])) else Fail(Mapped(BrokenCheck))
    case Deleting(b, l) =>
      if !LiveLine(db, l) || db.lines[l].budget != b then Fail(LineNotFound)
      else Commit(db.(lines := db.lines[l := db.lines[l].(deleted := true)]))
    case Patching(b, header, patch) => PatchRow(db, b, header, patch)
    case ReadingLines(b, header) =>
      if !IsLineOrder(db, b, order) then Continue(k)
      else if order == [] then Fail(NoLines)
      else Continue(Confirming(b, header, RowsIn(db, order), 0, AskAccount))
    case Confirming(b, header, rows, next, ask) =>
      if next < |rows| then
        (match Asked(db, gl, header, b, Candidate(rows[next]), ask)
         case Some(e) => Fail(e)
         case None => Continue(Confirming(b, header, rows, LineAfter(next, ask), Following(ask))))
      else CompareAndSet(db, b, ToConfirmed, Draft, Mapped(NoRow))
    case Transitioning(b, v, seen) => CompareAndSet(db, b, v, seen, InvalidTransition(seen))
  }

  function RowsIn(db: Db, order: seq<LineId>): seq<BudgetLine>
    requires forall l | l in order :: l in db.lines
  {
    seq(|order|, i requires 0 <= i < |order| => assert order[i] in order; db.lines[order[i]])
  }

  ghost function Perform(s: System, a: Action): System {
    match a
    case Start(t, v) =>
      if t in s.tasks || !Drawn(v) then s
      else (match Begin(s.db, v)
            case Err(_) => s
            case Ok(k) => s.(tasks := s.tasks[t := k]))
    case Advance(t, gl, order) =>
      if t !in s.tasks then s
      else (match Next(s.db, s.tasks[t], gl, order)
            case Continue(k) => s.(tasks := s.tasks[t := k])
            case Fail(_) => s.(tasks := s.tasks - {t})
            case Commit(db) => s.(db := db, tasks := s.tasks - {t})
            case Win(db, change) =>
              System(db, s.tasks - {t}, if change.verb == ToConfirmed then s.ever + {change.budget} else s.ever, s.log + [change]))
    case Abandon(t) => s.(tasks := s.tasks - {t})
  }

  ghost function Trace(s: System, actions: seq<Action>): System
    decreases |actions|
  {
    if actions == [] then s else Trace(Perform(s, actions[0]), actions[1..])
  }

  lemma {:induction false} TraceAppend(s: System, xs: seq<Action>, ys: seq<Action>)
    ensures Trace(s, xs + ys) == Trace(Trace(s, xs), ys)
    decreases |xs|
  {
    if xs == [] {
      assert xs + ys == ys;
    } else {
      assert (xs + ys)[1..] == xs[1..] + ys;
      TraceAppend(Perform(s, xs[0]), xs[1..], ys);
    }
  }

  // ── exclusivity under races ────────────────────────────────────────────────

  /** No two distinct budgets that were ever confirmed hold a common live key. */
  ghost predicate Exclusive(s: System) {
    forall b, c, key | b in s.ever && c in s.ever && Holds(s.db, b, key) && Holds(s.db, c, key) :: b == c
  }

  ghost predicate LinesHaveBudgets(db: Db) {
    forall l | l in db.lines :: db.lines[l].budget in db.budgets
  }

  /** Nothing in progress, lines have budgets, and ever-confirmed budgets are out of draft and exclusive. */
  ghost predicate Quiet(s: System) {
    && s.tasks == map[]
    && LinesHaveBudgets(s.db)
    && (forall b | b in s.ever :: b in s.db.budgets && s.db.budgets[b].status != Draft)
    && Exclusive(s)
  }

  /** Confirm of the budget has read its lines and has no check of the key to come. */
  predicate PastAsking(k: Task, b: BudgetId, key: LineKey) {
    k.Confirming? && k.budget == b && forall i | 0 <= i < |k.rows| && k.next <= i :: KeyOf(k.rows[i]) != key
  }

  /** What the budget has of the key, it has under control or is about to: no check will be made again. */
  ghost predicate StandsFor(s: System, b: BudgetId, key: LineKey) {
    b in s.ever || exists t | t in s.tasks :: PastAsking(s.tasks[t], b, key)
  }

  ghost predicate Seals(s: System, b: BudgetId, key: LineKey) {
    Holds(s.db, b, key) && StandsFor(s, b, key)
  }

  ghost predicate TaskSound(s: System, k: Task) {
    match k
    case Inserting(id, _, _, mine, _, _) => forall l | l in mine :: mine[l].budget == id
    case Adding(b, _, _, _, _) => b in s.db.budgets
    case Minting(b, _, _, _) => b in s.db.budgets
    case Confirming(b, _, _, _, _) => b in s.db.budgets
    case Transitioning(_, v, _) => v != ToConfirmed
    case _ => true
  }

  ghost predicate SealsUnique(s: System) {
    forall b, c, key | Seals(s, b, key) && Seals(s, c, key) :: b == c
  }

  ghost predicate TasksSound(s: System) {
    && LinesHaveBudgets(s.db)
    && (forall b | b in s.ever :: b in s.db.budgets && s.db.budgets[b].status != Draft)
    && (forall t | t in s.tasks :: TaskSound(s, s.tasks[t]))
  }

  ghost predicate RaceInvariant(s: System) {
    TasksSound(s) && SealsUnique(s)
  }

  /** An insert that lands where no check will be made again: on a budget that was confirmed, or whose confirm is past
      the key. It is harmless only if no other budget seals the key at that moment; every other step is. */
  ghost predicate LandsFree(s: System, a: Action) {
    a.Advance? && a.task in s.tasks && s.tasks[a.task].Minting? && Next(s.db, s.tasks[a.task], a.gl, a.order).Commit? ==>
      var k := s.tasks[a.task];
      StandsFor(s, k.budget, KeyOfNew(k.newLine)) ==> forall c | Seals(s, c, KeyOfNew(k.newLine)) :: c == k.budget
  }

  ghost predicate LandsFreeTrace(s: System, actions: seq<Action>)
    decreases |actions|
  {
    actions != [] ==> LandsFree(s, actions[0]) && LandsFreeTrace(Perform(s, actions[0]), actions[1..])
  }

  /** Only one budget's header and lines differ. */
  ghost predicate OnlyTouches(db: Db, after: Db, b: BudgetId) {
    && (forall c | c in db.budgets && c != b :: c in after.budgets && after.budgets[c] == db.budgets[c])
    && (forall c | c in after.budgets && c != b :: c in db.budgets)
    && (forall l | l in db.lines && db.lines[l].budget != b :: l in after.lines && after.lines[l] == db.lines[l])
    && (forall l | l in after.lines && after.lines[l].budget != b :: l in db.lines && db.lines[l] == after.lines[l])
  }

  lemma TouchedElsewhere(db: Db, after: Db, b: BudgetId, c: BudgetId)
    requires OnlyTouches(db, after, b) && c != b
    ensures LiveLinesOf(after, c) == LiveLinesOf(db, c)
    ensures forall l | l in LiveLinesOf(db, c) :: after.lines[l] == db.lines[l]
    ensures forall key :: Holds(after, c, key) <==> Holds(db, c, key)
  {
  }

  /** The budget's live lines were live before, on the same keys. */
  ghost predicate NoNewKeys(db: Db, after: Db, b: BudgetId) {
    forall l | l in LiveLinesOf(after, b) :: l in LiveLinesOf(db, b) && KeyOf(after.lines[l]) == KeyOf(db.lines[l])
  }

  /** One live line of the budget is rewritten, not its key, and perhaps deleted. */
  ghost predicate RowEdited(db: Db, after: Db, b: BudgetId, l: LineId) {
    && LiveLine(db, l)
    && l in after.lines
    && after == db.(lines := db.lines[l := after.lines[l]])
    && db.lines[l].budget == after.lines[l].budget == b
    && KeyOf(after.lines[l]) == KeyOf(db.lines[l])
  }

  /** One header is rewritten: its enforcement alone, or, in draft, anything but its status. */
  ghost predicate HeaderEdited(db: Db, after: Db, b: BudgetId, patch: BudgetPatch) {
    && LiveBudget(db, b)
    && b in after.budgets
    && after == db.(budgets := db.budgets[b := after.budgets[b]])
    && if patch.enforcement.Some? then after.budgets[b] == db.budgets[b].(enforcement := patch.enforcement.value)
       else db.budgets[b].status == after.budgets[b].status == Draft
  }

  /** What each kind of commit writes. */
  ghost predicate Writes(db: Db, k: Task, after: Db) {
    match k
    case Inserting(id, _, input, mine, _, _) =>
      id !in db.budgets && (forall l | l in mine :: l !in db.lines) && after == View(db, id, input, mine)
    case Minting(b, l, line, minted) =>
      minted.Some? && l !in db.lines && after == db.(lines := db.lines[l := NewRow(minted.value, b, line)])
    case Updating(b, l, _, _) => RowEdited(db, after, b, l)
    case Deleting(b, l) => RowEdited(db, after, b, l)
    case Patching(b, _, patch) => HeaderEdited(db, after, b, patch)
    case _ => false
  }

  lemma CommitWrites(db: Db, k: Task, gl: Gl, order: seq<LineId>)
    requires Next(db, k, gl, order).Commit?
    ensures Writes(db, k, Next(db, k, gl, order).db)
  {
  }

  /** A commit touches its own budget only and moves no status; only a create, of a new budget, and an add_line bring keys. */
  lemma CommitTouchesOwn(db: Db, k: Task, after: Db)
    requires LinesHaveBudgets(db) && Writes(db, k, after)
    requires k.Inserting? ==> forall l | l in k.mine :: k.mine[l].budget == k.id
    requires k.Minting? ==> k.budget in db.budgets
    ensures OnlyTouches(db, after, BudgetOf(k))
    ensures LinesHaveBudgets(after)
    ensures forall b | b in db.budgets :: b in after.budgets && after.budgets[b].status == db.budgets[b].status
    ensures !k.Inserting? && !k.Minting? ==> NoNewKeys(db, after, BudgetOf(k))
  {
    match k {
      case Inserting(_, _, _, _, _, _) => CreateTouchesOwn(db, after, k);
      case Updating(b, l, _, _) => EditTouchesOwn(db, after, b, l);
      case Deleting(b, l) => EditTouchesOwn(db, after, b, l);
      case _ =>
    }
  }

  lemma EditTouchesOwn(db: Db, after: Db, b: BudgetId, l: LineId)
    requires LinesHaveBudgets(db) && RowEdited(db, after, b, l)
    ensures OnlyTouches(db, after, b) && LinesHaveBudgets(after) && NoNewKeys(db, after, b)
  {
  }

  lemma CreateTouchesOwn(db: Db, after: Db, k: Task)
    requires k.Inserting? && LinesHaveBudgets(db) && Writes(db, k, after)
    requires forall l | l in k.mine :: k.mine[l].budget == k.id
    ensures OnlyTouches(db, after, k.id) && LinesHaveBudgets(after)
  {
    assert after.lines == db.lines + k.mine;
  }

  lemma WriteKeepsTasks(s: System, t: TaskId, after: System)
    requires TasksSound(s) && t in s.tasks
    requires Writes(s.db, s.tasks[t], after.db) && after.tasks == s.tasks - {t} && after.ever == s.ever
    ensures TasksSound(after)
  {
    CommitTouchesOwn(s.db, s.tasks[t], after.db);
    forall u | u in after.tasks ensures TaskSound(after, after.tasks[u]) {
      assert TaskSound(s, s.tasks[u]);
    }
  }

  /** The one seal a write can add is that of an inserted line. */
  lemma WriteSeals(s: System, t: TaskId, after: System, c: BudgetId, key: LineKey)
    requires TasksSound(s) && t in s.tasks
    requires Writes(s.db, s.tasks[t], after.db) && after.tasks == s.tasks - {t} && after.ever == s.ever
    ensures StandsFor(after, c, key) <==> StandsFor(s, c, key)
    ensures var k := s.tasks[t];
            !(k.Minting? && c == k.budget && key == KeyOfNew(k.newLine)) && Seals(after, c, key) ==> Seals(s, c, key)
    ensures c != BudgetOf(s.tasks[t]) ==> (Seals(after, c, key) <==> Seals(s, c, key))
  {
    var k := s.tasks[t];
    CommitTouchesOwn(s.db, k, after.db);
    assert forall u | u in s.tasks && PastAsking(s.tasks[u], c, key) :: u in after.tasks;
    if c != BudgetOf(k) {
      TouchedElsewhere(s.db, after.db, BudgetOf(k), c);
    } else if k.Inserting? {
      assert forall u | u in s.tasks :: TaskSound(s, s.tasks[u]);
    }
  }

  /** A write keeps the seals unique exactly when it lands free. */
  lemma WriteKeepsSealsExactly(s: System, a: Action)
    requires RaceInvariant(s)
    requires a.Advance? && a.task in s.tasks && Next(s.db, s.tasks[a.task], a.gl, a.order).Commit?
    ensures TasksSound(Perform(s, a))
    ensures SealsUnique(Perform(s, a)) <==> LandsFree(s, a)
  {
    var k, after := s.tasks[a.task], Perform(s, a);
    CommitWrites(s.db, k, a.gl, a.order);
    WriteKeepsTasks(s, a.task, after);
    forall c, key ensures
      && (StandsFor(after, c, key) <==> StandsFor(s, c, key))
      && (!(k.Minting? && c == k.budget && key == KeyOfNew(k.newLine)) && Seals(after, c, key) ==> Seals(s, c, key))
      && (c != BudgetOf(k) ==> (Seals(after, c, key) <==> Seals(s, c, key)))
    {
      WriteSeals(s, a.task, after, c, key);
    }
    if k.Minting? {
      InsertHolds(s.db, after.db, k);
      assert StandsFor(s, k.budget, KeyOfNew(k.newLine)) ==> Seals(after, k.budget, KeyOfNew(k.newLine));
    }
  }

  lemma InsertHolds(db: Db, after: Db, k: Task)
    requires k.Minting? && Writes(db, k, after)
    ensures Holds(after, k.budget, KeyOfNew(k.newLine))
  {
    assert k.line in LiveLinesOf(after, k.budget);
  }

  /** What a win is: the row still had the status that was read, and only its status moves. */
  ghost predicate Swaps(db: Db, k: Task, after: Db, change: Change) {
    && LiveBudget(db, BudgetOf(k))
    && change.budget == BudgetOf(k)
    && change.seen == db.budgets[BudgetOf(k)].status
    && after == WithStatus(db, BudgetOf(k), Target(change.verb))
    && match k
       case Confirming(_, _, rows, next, _) => next >= |rows| && change.verb == ToConfirmed && change.seen == Draft
       case Transitioning(_, v, seen) => change.verb == v && change.seen == seen
       case _ => false
  }

  lemma WinSwaps(db: Db, k: Task, gl: Gl, order: seq<LineId>)
    requires Next(db, k, gl, order).Win?
    ensures Swaps(db, k, Next(db, k, gl, order).after, Next(db, k, gl, order).change)
  {
  }

  /** Winning a confirm seals nothing new: it is past every check. */
  lemma WinKeepsRaceInvariant(s: System, t: TaskId, after: System, change: Change)
    requires RaceInvariant(s)
    requires t in s.tasks && Swaps(s.db, s.tasks[t], after.db, change)
    requires after.tasks == s.tasks - {t} && after.ever == s.ever + if change.verb == ToConfirmed then {change.budget} else {}
    ensures RaceInvariant(after)
  {
    assert forall c :: LiveLinesOf(after.db, c) == LiveLinesOf(s.db, c);
    forall u | u in after.tasks ensures TaskSound(after, after.tasks[u]) {
      assert TaskSound(s, s.tasks[u]);
    }
    forall c, key | Seals(after, c, key) ensures Seals(s, c, key) {
      if c !in s.ever && c in after.ever {
        assert PastAsking(s.tasks[t], c, key);
      }
    }
  }

  lemma ContinueKeepsRaceInvariant(s: System, t: TaskId, gl: Gl, order: seq<LineId>)
    requires RaceInvariant(s)
    requires t in s.tasks && Next(s.db, s.tasks[t], gl, order).Continue?
    ensures RaceInvariant(Perform(s, Advance(t, gl, order)))
  {
    var k, after := s.tasks[t], Perform(s, Advance(t, gl, order));
    ContinueKeepsTaskSound(s, k, gl, order);
    forall b, c, key | Seals(after, b, key) && Seals(after, c, key) ensures b == c {
      if !Seals(s, b, key) {
        NewlySealed(s, t, gl, order, b, c, key);
      } else if !Seals(s, c, key) {
        NewlySealed(s, t, gl, order, c, b, key);
      }
    }
  }

  lemma ContinueKeepsTaskSound(s: System, k: Task, gl: Gl, order: seq<LineId>)
    requires LinesHaveBudgets(s.db) && TaskSound(s, k) && Next(s.db, k, gl, order).Continue?
    ensures TaskSound(s, Next(s.db, k, gl, order).task)
    ensures BudgetOf(Next(s.db, k, gl, order).task) == BudgetOf(k)
  {
    if k.ReadingLines? && IsLineOrder(s.db, k.budget, order) {
      assert order[0] in LiveLinesOf(s.db, k.budget);
    }
  }

  /** The rows of a line query are the live lines and nothing else. */
  lemma RowsInAreLive(db: Db, b: BudgetId, order: seq<LineId>)
    requires IsLineOrder(db, b, order)
    ensures forall l | l in order :: l in db.lines
    ensures RowsAreLive(db, b, RowsIn(db, order))
  {
    assert forall l | l in order :: l in LiveLinesOf(db, b);
    var rows := RowsIn(db, order);
    forall l | l in LiveLinesOf(db, b) ensures db.lines[l] in rows {
      var i :| 0 <= i < |order| && order[i] == l;
      assert rows[i] == db.lines[l];
    }
    forall row | row in rows ensures exists l | l in LiveLinesOf(db, b) :: db.lines[l] == row {
      var i :| 0 <= i < |rows| && rows[i] == row;
      assert order[i] in order;
    }
  }

  ghost predicate RowsAreLive(db: Db, b: BudgetId, rows: seq<BudgetLine>) {
    && (forall l | l in LiveLinesOf(db, b) :: db.lines[l] in rows)
    && (forall row | row in rows :: exists l | l in LiveLinesOf(db, b) :: db.lines[l] == row)
  }

  /** A key is newly sealed by the check that found it free of every other budget. */
  lemma NewlySealed(s: System, t: TaskId, gl: Gl, order: seq<LineId>, b: BudgetId, c: BudgetId, key: LineKey)
    requires t in s.tasks && Next(s.db, s.tasks[t], gl, order).Continue?
    requires var after := Perform(s, Advance(t, gl, order)); Seals(after, b, key) && Holds(after.db, c, key)
    requires !Seals(s, b, key)
    ensures b == c
  {
    var k, after := s.tasks[t], Perform(s, Advance(t, gl, order));
    var u :| u in after.tasks && PastAsking(after.tasks[u], b, key);
    assert u == t;
    if k.ReadingLines? {
      ReadingSealsNothing(s.db, k, gl, order, key);
    } else {
      assert k.Confirming? && KeyOf(k.rows[k.next]) == key;
      HeldElsewhereIsTaken(s.db, b, c, key);
    }
  }

  lemma ReadingSealsNothing(db: Db, k: Task, gl: Gl, order: seq<LineId>, key: LineKey)
    requires k.ReadingLines? && Next(db, k, gl, order).Continue? && Holds(db, k.budget, key)
    ensures !PastAsking(Next(db, k, gl, order).task, k.budget, key)
  {
    if IsLineOrder(db, k.budget, order) {
      RowsInAreLive(db, k.budget, order);
      var l :| l in LiveLinesOf(db, k.budget) && KeyOf(db.lines[l]) == key;
      var rows := RowsIn(db, order);
      var i :| 0 <= i < |rows| && rows[i] == db.lines[l];
      assert KeyOf(rows[i]) == key;
    }
  }

  lemma HeldElsewhereIsTaken(db: Db, b: BudgetId, c: BudgetId, key: LineKey)
    requires Holds(db, c, key)
    ensures c == b || KeyTaken(db, key, b)
  {
  }

  /** Tasks that end, and tasks that begin, seal nothing. */
  lemma MovedTasksKeepRaceInvariant(s: System, tasks: map<TaskId, Task>)
    requires RaceInvariant(s)
    requires forall t | t in tasks :: if tasks[t].Confirming? then t in s.tasks && tasks[t] == s.tasks[t] else TaskSound(s, tasks[t])
    ensures RaceInvariant(s.(tasks := tasks))
  {
    assert forall b, key | Seals(s.(tasks := tasks), b, key) :: Seals(s, b, key);
  }

  lemma BegunIsSound(s: System, v: Verb)
    requires RaceInvariant(s) && Begin(s.db, v).Ok?
    ensures !Begin(s.db, v).value.Confirming? && TaskSound(s, Begin(s.db, v).value)
  {
  }

  /** Every step keeps the invariant, exactly when it lands free. */
  lemma StepKeepsRaceInvariantExactly(s: System, a: Action)
    requires RaceInvariant(s)
    ensures RaceInvariant(Perform(s, a)) <==> LandsFree(s, a)
  {
    if a.Advance? && a.task in s.tasks {
      var o := Next(s.db, s.tasks[a.task], a.gl, a.order);
      if o.Continue? {
        ContinueKeepsRaceInvariant(s, a.task, a.gl, a.order);
      } else if o.Commit? {
        WriteKeepsSealsExactly(s, a);
      } else if o.Win? {
        WinSwaps(s.db, s.tasks[a.task], a.gl, a.order);
        WinKeepsRaceInvariant(s, a.task, Perform(s, a), o.change);
      } else {
        MovedTasksKeepRaceInvariant(s, s.tasks - {a.task});
      }
    } else {
      if a.Start? && Drawn(a.verb) && Begin(s.db, a.verb).Ok? {
        BegunIsSound(s, a.verb);
      }
      MovedTasksKeepRaceInvariant(s, Perform(s, a).tasks);
    }
  }

  /** Confirm restores exclusivity: verbs may overlap in any way, on one budget too, as long as no insert lands on a
      budget standing for its key while another seals it; then no two ever-confirmed budgets hold a common live key,
      at any moment of any trace. */
  lemma {:induction false} RacesKeepExclusivity(s: System, actions: seq<Action>)
    requires RaceInvariant(s) && LandsFreeTrace(s, actions)
    ensures RaceInvariant(Trace(s, actions)) && Exclusive(Trace(s, actions))
    decreases |actions|
  {
    if actions == [] {
      forall b, c, key | b in s.ever && c in s.ever && Holds(s.db, b, key) && Holds(s.db, c, key) ensures b == c {
        assert Seals(s, b, key) && Seals(s, c, key);
      }
    } else {
      StepKeepsRaceInvariantExactly(s, actions[0]);
      RacesKeepExclusivity(Perform(s, actions[0]), actions[1..]);
    }
  }

  lemma QuietIsSound(s: System)
    requires Quiet(s)
    ensures RaceInvariant(s)
  {
    assert forall b, key | Seals(s, b, key) :: b in s.ever;
  }

  // ── a condition on what overlaps ───────────────────────────────────────────

  /** The task will bring a line into a budget that exists. */
  predicate AddsLine(k: Task) {
    k.Adding? || k.Minting?
  }

  /** No add_line is in progress on a budget whose confirm has read its lines. Everything else may overlap. */
  ghost predicate Clear(s: System) {
    forall t, u | t in s.tasks && u in s.tasks && AddsLine(s.tasks[t]) && s.tasks[u].Confirming? :: BudgetOf(s.tasks[t]) != BudgetOf(s.tasks[u])
  }

  ghost predicate ClearTrace(s: System, actions: seq<Action>)
    decreases |actions|
  {
    Clear(s) && (actions != [] ==> ClearTrace(Perform(s, actions[0]), actions[1..]))
  }

  /** Lines are added to budgets that were never confirmed. */
  ghost predicate AddsEarly(s: System) {
    forall t | t in s.tasks && AddsLine(s.tasks[t]) :: BudgetOf(s.tasks[t]) !in s.ever
  }

  lemma StepKeepsAddsEarly(s: System, a: Action)
    requires RaceInvariant(s) && Clear(s) && AddsEarly(s)
    ensures AddsEarly(Perform(s, a))
  {
    if a.Advance? && a.task in s.tasks && Next(s.db, s.tasks[a.task], a.gl, a.order).Win? {
      WinSwaps(s.db, s.tasks[a.task], a.gl, a.order);
    }
  }

  lemma {:induction false} ClearLandsFree(s: System, actions: seq<Action>)
    requires RaceInvariant(s) && AddsEarly(s) && ClearTrace(s, actions)
    ensures LandsFreeTrace(s, actions)
    decreases |actions|
  {
    if actions != [] {
      var a := actions[0];
      if a.Advance? && a.task in s.tasks && s.tasks[a.task].Minting? {
        assert AddsLine(s.tasks[a.task]);
        assert forall key :: !StandsFor(s, s.tasks[a.task].budget, key);
      }
      StepKeepsRaceInvariantExactly(s, a);
      StepKeepsAddsEarly(s, a);
      ClearLandsFree(Perform(s, a), actions[1..]);
    }
  }

  /** From any quiet state, if no add_line overlaps a confirm of its own budget. */
  lemma ConfirmRestoresExclusivity(s: System, actions: seq<Action>)
    requires Quiet(s) && ClearTrace(s, actions)
    ensures Exclusive(Trace(s, actions))
  {
    QuietIsSound(s);
    ClearLandsFree(s, actions);
    RacesKeepExclusivity(s, actions);
  }
}
