/** Whole runs of atomic verbs, with arbitrary changes of the GL masters between them:
    what every reachable state satisfies, what never changes again once a budget leaves
    draft, and which keys stay held. */
module AtomicRuns {
  import opened BudgetTypes
  import opened BudgetReads
  import opened BudgetWorkflow

  /** One verb, and the masters as it found them. */
  datatype Event = Event(gl: Gl, verb: Verb)

  /** The tables, and which budgets have ever been confirmed. */
  datatype World = World(db: Db, ever: set<BudgetId>)

  function Step(w: World, e: Event): World
    requires Drawn(e.verb)
  {
    World(Apply(w.db, e.gl, e.verb),
          if e.verb.Confirm? && Succeeds(w.db, e.gl, e.verb) then w.ever + {e.verb.budget} else w.ever)
  }

  predicate AllDrawn(events: seq<Event>) {
    forall e | e in events :: Drawn(e.verb)
  }

  function Run(w: World, events: seq<Event>): World
    requires AllDrawn(events)
    decreases |events|
  {
    if events == [] then w else Run(Step(w, events[0]), events[1..])
  }

  // ── the global invariant ───────────────────────────────────────────────────

  /** One live budget per code. */
  ghost predicate CodesDistinct(db: Db) {
    forall b, c | LiveBudget(db, b) && LiveBudget(db, c) && db.budgets[b].code == db.budgets[c].code :: b == c
  }

  /** No live key is shared by two budgets. */
  ghost predicate KeysExclusive(db: Db) {
    forall l, m | LiveLine(db, l) && LiveLine(db, m) && KeyOf(db.lines[l]) == KeyOf(db.lines[m]) ::
      db.lines[l].budget == db.lines[m].budget
  }

  predicate HeaderSound(h: Budget) {
    h.dateFrom <= h.dateTo && BudgetRowOk(h)
  }

  /** The line's budget exists, live if the line is; its year is the header's; its row is inside the CHECKs. */
  predicate LineSound(db: Db, l: BudgetLine) {
    && l.budget in db.budgets
    && (!l.deleted ==> !db.budgets[l.budget].deleted)
    && l.fiscalYear == db.budgets[l.budget].fiscalYear
    && LineRowOk(l)
  }

  ghost predicate RowsSound(db: Db) {
    && (forall b | b in db.budgets :: HeaderSound(db.budgets[b]))
    && (forall l | l in db.lines :: LineSound(db, db.lines[l]))
  }

  predicate Armed(db: Db, b: BudgetId) {
    && b in db.budgets
    && db.budgets[b].status != Draft
    && LiveLinesOf(db, b) != {}
    && forall l | l in LiveLinesOf(db, b) :: db.lines[l].planned > 0.0
  }

  /** Ever-confirmed budgets keep at least one live line, all with a positive amount;
      and only an ever-confirmed budget is confirmed or closed. */
  ghost predicate EverSound(w: World) {
    && (forall b | b in w.ever :: Armed(w.db, b))
    && (forall b | b in w.db.budgets && w.db.budgets[b].status in {Confirmed, Closed} :: b in w.ever)
  }

  ghost predicate Invariant(w: World) {
    CodesDistinct(w.db) && KeysExclusive(w.db) && RowsSound(w.db) && EverSound(w)
  }

  // ── the four ways a verb changes the tables ────────────────────────────────

  /** Only one header is rewritten, and not its identity. */
  ghost predicate HeaderRewritten(db: Db, after: Db, b: BudgetId) {
    && LiveBudget(db, b)
    && after.lines == db.lines
    && after.budgets.Keys == db.budgets.Keys
    && (forall c | c in db.budgets && c != b :: after.budgets[c] == db.budgets[c])
    && var was, now := db.budgets[b], after.budgets[b];
       && now.code == was.code
       && now.fiscalYear == was.fiscalYear
       && now.deleted == was.deleted
       && (HeaderSound(was) ==> HeaderSound(now))
       && (was.status != Draft ==> now == was.(status := now.status, enforcement := now.enforcement) && now.status != Draft)
       && (was.status in {Closed, Cancelled} ==> now == was)
  }

  /** Only lines of a draft are rewritten, and not their keys; they may be deleted. */
  ghost predicate LineRewritten(db: Db, after: Db, b: BudgetId) {
    && LiveBudget(db, b)
    && db.budgets[b].status == Draft
    && after.budgets == db.budgets
    && after.lines.Keys == db.lines.Keys
    && forall l | l in db.lines :: after.lines[l] == db.lines[l] || RewrittenRow(b, db.lines[l], after.lines[l])
  }

  predicate RewrittenRow(b: BudgetId, was: BudgetLine, now: BudgetLine) {
    && was.budget == now.budget == b
    && !was.deleted
    && KeyOf(now) == KeyOf(was)
    && now.fiscalYear == was.fiscalYear
    && (LineRowOk(was) ==> LineRowOk(now))
  }

  /** A line is added to a draft, on a key no other budget holds. */
  ghost predicate LineAdded(db: Db, after: Db, b: BudgetId) {
    && LiveBudget(db, b)
    && db.budgets[b].status == Draft
    && after.budgets == db.budgets
    && Keeps(db.lines, after.lines)
    && forall l | l in after.lines && l !in db.lines :: AddedRow(db, db.budgets[b], b, after.lines[l])
  }

  predicate AddedRow(db: Db, header: Budget, b: BudgetId, row: BudgetLine) {
    && row.budget == b
    && !row.deleted
    && row.fiscalYear == header.fiscalYear
    && LineRowOk(row)
    && !KeyTaken(db, KeyOf(row), b)
  }

  /** One draft is added with its lines. */
  ghost predicate BudgetAdded(db: Db, after: Db, b: BudgetId) {
    && b !in db.budgets
    && b in after.budgets
    && after.budgets == db.budgets[b := after.budgets[b]]
    && var header := after.budgets[b];
       && header.status == Draft
       && !header.deleted
       && HeaderSound(header)
       && !CodeInUse(db, header.code, b)
       && Keeps(db.lines, after.lines)
       && (forall l | l in after.lines && l !in db.lines :: AddedRow(db, header, b, after.lines[l]))
  }

  ghost predicate Shape(db: Db, after: Db, b: BudgetId) {
    || after == db
    || HeaderRewritten(db, after, b)
    || LineRewritten(db, after, b)
    || LineAdded(db, after, b)
    || BudgetAdded(db, after, b)
  }

  /** Every verb with every argument does one of these, to its own budget, or nothing. */
  lemma VerbShape(db: Db, gl: Gl, v: Verb)
    requires Drawn(v)
    ensures Shape(db, Apply(db, gl, v), TargetBudget(v))
  {
    if Succeeds(db, gl, v) {
      match v {
        case Create(id, lineIds, input) => CreateShape(db, gl, id, lineIds, input);
        case Patch(b, patch) => PatchShape(db, b, patch);
        case AddLine(b, id, line) => AddLineShape(db, gl, b, id, line);
        case UpdateLine(b, l, planned, notes) =>
          assert RewrittenRow(b, db.lines[l], Apply(db, gl, v).lines[l]);
        case DeleteLine(b, l) =>
          assert RewrittenRow(b, db.lines[l], Apply(db, gl, v).lines[l]);
        case Confirm(b) => StatusShape(db, b, ToConfirmed);
        case Close(b) => StatusShape(db, b, ToClosed);
        case Cancel(b) => StatusShape(db, b, ToCancelled);
      }
    } else {
      FailedVerbWritesNothing(db, gl, v);
    }
  }

  lemma PatchShape(db: Db, b: BudgetId, patch: BudgetPatch)
    requires PatchEffect(db, b, patch).result.Ok?
    ensures HeaderRewritten(db, PatchEffect(db, b, patch).db, b)
  {
  }

  lemma StatusShape(db: Db, b: BudgetId, v: LifecycleVerb)
    requires LiveBudget(db, b) && db.budgets[b].status in AllowedFrom(v)
    ensures HeaderRewritten(db, WithStatus(db, b, Target(v)), b)
  {
  }

  lemma CreateShape(db: Db, gl: Gl, id: BudgetId, lineIds: seq<LineId>, input: NewBudget)
    requires |lineIds| == |input.lines|
    requires CreateEffect(db, gl, id, lineIds, input).result.Ok?
    ensures BudgetAdded(db, CreateEffect(db, gl, id, lineIds, input).db, id)
  {
    CreateAddsExactly(db, gl, id, lineIds, input);
    var after := CreateEffect(db, gl, id, lineIds, input).db;
    forall l | l in after.lines && l !in db.lines ensures AddedRow(db, DraftOf(input), id, after.lines[l]) {
      CreatedRow(db, after, gl, id, lineIds, input, l);
    }
  }

  lemma CreatedRow(db: Db, after: Db, gl: Gl, id: BudgetId, lineIds: seq<LineId>, input: NewBudget, l: LineId)
    requires |lineIds| == |input.lines| && after.lines.Keys == db.lines.Keys + (set l | l in lineIds)
    requires forall i | 0 <= i < |lineIds| :: Stored(gl, after.lines, id, lineIds[i], input.lines[i])
    requires forall line | line in input.lines :: Refusal(db, gl, DraftOf(input), id, line).None?
    requires l in after.lines && l !in db.lines
    ensures AddedRow(db, DraftOf(input), id, after.lines[l])
  {
    assert l in lineIds;
    var i :| 0 <= i < |lineIds| && lineIds[i] == l;
    assert Stored(gl, after.lines, id, lineIds[i], input.lines[i]);
    assert input.lines[i] in input.lines;
  }

  lemma AddLineShape(db: Db, gl: Gl, b: BudgetId, id: LineId, line: NewBudgetLine)
    requires AddLineEffect(db, gl, b, id, line).result.Ok?
    ensures LineAdded(db, AddLineEffect(db, gl, b, id, line).db, b)
  {
  }

  // ── preservation ───────────────────────────────────────────────────────────

  lemma KeepsCodes(db: Db, after: Db, b: BudgetId)
    requires Shape(db, after, b) && CodesDistinct(db)
    ensures CodesDistinct(after)
  {
  }

  lemma KeepsKeys(db: Db, after: Db, b: BudgetId)
    requires Shape(db, after, b) && KeysExclusive(db)
    ensures KeysExclusive(after)
  {
  }

  lemma KeepsRows(db: Db, after: Db, b: BudgetId)
    requires Shape(db, after, b) && RowsSound(db)
    ensures RowsSound(after)
  {
    forall l | l in after.lines ensures LineSound(after, after.lines[l]) {
      if l in db.lines {
        assert LineSound(db, db.lines[l]);
      }
    }
  }

  /** A successful confirm leaves the budget with at least one live line, all of them positive. */
  lemma ConfirmArms(db: Db, gl: Gl, b: BudgetId)
    requires Confirmable(db, gl, b)
    ensures Armed(WithStatus(db, b, Confirmed), b)
  {
  }

  lemma StaysArmed(db: Db, after: Db, b: BudgetId)
    requires Armed(db, b) && Frozen(db, after, b)
    ensures Armed(after, b)
  {
  }

  /** Only confirm brings a budget to confirmed, and closed is reached from confirmed. */
  lemma OnlyConfirmArms(db: Db, gl: Gl, v: Verb, b: BudgetId)
    requires Drawn(v)
    requires b in Apply(db, gl, v).budgets && Apply(db, gl, v).budgets[b].status in {Confirmed, Closed}
    ensures (b in db.budgets && db.budgets[b].status in {Confirmed, Closed}) || (v.Confirm? && v.budget == b && Succeeds(db, gl, v))
  {
    if v.Create? && Succeeds(db, gl, v) {
      CreateAddsExactly(db, gl, v.id, v.lineIds, v.input);
    }
  }

  lemma KeepsEver(w: World, e: Event)
    requires Drawn(e.verb) && EverSound(w)
    ensures EverSound(Step(w, e))
  {
    var after := Step(w, e);
    forall b | b in after.ever ensures Armed(after.db, b) {
      if b in w.ever {
        FreezeStep(w.db, e.gl, e.verb, b);
        StaysArmed(w.db, after.db, b);
      } else {
        ConfirmArms(w.db, e.gl, b);
      }
    }
    forall b | b in after.db.budgets && after.db.budgets[b].status in {Confirmed, Closed} ensures b in after.ever {
      OnlyConfirmArms(w.db, e.gl, e.verb, b);
    }
  }

  /** Every atomic run keeps the global invariant, whatever the verbs, their arguments and the masters. */
  lemma {:induction false} RunKeepsInvariant(w: World, events: seq<Event>)
    requires AllDrawn(events) && Invariant(w)
    ensures Invariant(Run(w, events))
    decreases |events|
  {
    if events != [] {
      var e := events[0];
      var after, b := Apply(w.db, e.gl, e.verb), TargetBudget(e.verb);
      VerbShape(w.db, e.gl, e.verb);
      KeepsCodes(w.db, after, b);
      KeepsKeys(w.db, after, b);
      KeepsRows(w.db, after, b);
      KeepsEver(w, e);
      RunKeepsInvariant(Step(w, e), events[1..]);
    }
  }

  /** In particular, every state reached from an empty database. */
  lemma ReachableIsSound(events: seq<Event>)
    requires AllDrawn(events)
    ensures Invariant(Run(World(Db(map[], map[]), {}), events))
  {
    RunKeepsInvariant(World(Db(map[], map[]), {}), events);
  }

  // ── freeze ─────────────────────────────────────────────────────────────────

  /** The same rows, live and deleted, belong to the budget. */
  ghost predicate SameLines(db: Db, after: Db, b: BudgetId) {
    && (forall l | l in db.lines && db.lines[l].budget == b :: l in after.lines && after.lines[l] == db.lines[l])
    && (forall l | l in after.lines && after.lines[l].budget == b :: l in db.lines && db.lines[l] == after.lines[l])
  }

  /** Nothing but status and enforcement has moved, draft has not come back, and a closed or cancelled header is final. */
  ghost predicate Frozen(db: Db, after: Db, b: BudgetId)
    requires b in db.budgets
  {
    && b in after.budgets
    && var was, now := db.budgets[b], after.budgets[b];
       && now == was.(status := now.status, enforcement := now.enforcement)
       && now.status != Draft
       && (was.status in {Closed, Cancelled} ==> now == was)
       && SameLines(db, after, b)
  }

  lemma ShapeFreezes(db: Db, after: Db, target: BudgetId, b: BudgetId)
    requires Shape(db, after, target)
    requires b in db.budgets && db.budgets[b].status != Draft
    ensures Frozen(db, after, b)
  {
  }

  lemma FreezeStep(db: Db, gl: Gl, v: Verb, b: BudgetId)
    requires Drawn(v)
    requires b in db.budgets && db.budgets[b].status != Draft
    ensures Frozen(db, Apply(db, gl, v), b)
  {
    VerbShape(db, gl, v);
    ShapeFreezes(db, Apply(db, gl, v), TargetBudget(v), b);
  }

  lemma SameLinesSameLive(db: Db, after: Db, b: BudgetId)
    requires SameLines(db, after, b)
    ensures LiveLinesOf(after, b) == LiveLinesOf(db, b)
    ensures forall l | l in LiveLinesOf(db, b) :: after.lines[l] == db.lines[l]
  {
  }

  /** Once a budget leaves draft, its identity, dates and the full set and content of its lines never change again;
      once it is closed or cancelled, neither do its enforcement and status. */
  lemma {:induction false} FreezeOverRuns(w: World, events: seq<Event>, b: BudgetId)
    requires AllDrawn(events)
    requires b in w.db.budgets && w.db.budgets[b].status != Draft
    ensures Frozen(w.db, Run(w, events).db, b)
    decreases |events|
  {
    if events != [] {
      FreezeStep(w.db, events[0].gl, events[0].verb, b);
      FreezeOverRuns(Step(w, events[0]), events[1..], b);
    }
  }

  // ── confirm-time validity ──────────────────────────────────────────────────

  predicate PeriodFits(periods: map<PeriodId, Period>, header: Budget, line: BudgetLine) {
    && line.period in periods
    && var p := periods[line.period];
       && !p.deleted
       && p.fiscalYear == header.fiscalYear
       && header.dateFrom <= p.start
       && p.end <= header.dateTo
  }

  predicate PeriodsFit(periods: map<PeriodId, Period>, db: Db, b: BudgetId) {
    b in db.budgets && forall l | l in LiveLinesOf(db, b) :: PeriodFits(periods, db.budgets[b], db.lines[l])
  }

  /** With the fiscal periods unchanged (accounts and cost centers may change at will), every live line of every
      ever-confirmed budget stays inside its header's year and dates, although a draft's dates may shrink freely. */
  lemma {:induction false} ConfirmedPeriodsKeepFitting(w: World, events: seq<Event>, periods: map<PeriodId, Period>)
    requires AllDrawn(events)
    requires forall e | e in events :: e.gl.periods == periods
    requires forall b | b in w.ever :: b in w.db.budgets && w.db.budgets[b].status != Draft && PeriodsFit(periods, w.db, b)
    ensures forall b | b in Run(w, events).ever :: PeriodsFit(periods, Run(w, events).db, b)
    decreases |events|
  {
    if events != [] {
      var e, next := events[0], Step(w, events[0]);
      assert e in events;
      forall b | b in next.ever
        ensures b in next.db.budgets && next.db.budgets[b].status != Draft && PeriodsFit(periods, next.db, b)
      {
        if b in w.ever {
          FreezeStep(w.db, e.gl, e.verb, b);
          SameLinesSameLive(w.db, next.db, b);
        } else {
          assert LiveLinesOf(next.db, b) == LiveLinesOf(w.db, b);
          forall l | l in LiveLinesOf(w.db, b) ensures PeriodFits(periods, w.db.budgets[b], w.db.lines[l]) {
            assert Refusal(w.db, e.gl, w.db.budgets[b], b, Candidate(w.db.lines[l])).None?;
          }
        }
      }
      ConfirmedPeriodsKeepFitting(next, events[1..], periods);
    }
  }

  // ── held keys ──────────────────────────────────────────────────────────────

  predicate Holds(db: Db, b: BudgetId, key: LineKey) {
    exists l | l in LiveLinesOf(db, b) :: KeyOf(db.lines[l]) == key
  }

  /** The verb would bring the key into another budget, or put another budget that has it in control. */
  predicate Claims(db: Db, v: Verb, key: LineKey) {
    match v
    case Create(_, _, input) => exists line | line in input.lines :: KeyOfNew(line) == key
    case AddLine(_, _, line) => KeyOfNew(line) == key
    case Confirm(b) => Holds(db, b, key)
    case _ => false
  }

  lemma HeldKeyRefuses(db: Db, gl: Gl, v: Verb, b: BudgetId, key: LineKey)
    requires Drawn(v) && Holds(db, b, key)
    requires TargetBudget(v) != b && Claims(db, v, key)
    ensures !Succeeds(db, gl, v)
  {
    var held :| held in LiveLinesOf(db, b) && KeyOf(db.lines[held]) == key;
    assert KeyTaken(db, key, TargetBudget(v));
    match v {
      case Create(id, lineIds, input) =>
        var line :| line in input.lines && KeyOfNew(line) == key;
        NoRefusal(db, gl, DraftOf(input), id, input.lines);
        assert Refusal(db, gl, DraftOf(input), id, line).Some?;
      case AddLine(c, id, line) =>
      case Confirm(c) =>
        var l :| l in LiveLinesOf(db, c) && KeyOf(db.lines[l]) == key;
        assert KeyOfNew(Candidate(db.lines[l])) == key;
        if LiveBudget(db, c) {
          assert Refusal(db, gl, db.budgets[c], c, Candidate(db.lines[l])).Some?;
        }
      case _ =>
    }
  }

  /** A key held by a budget that has left draft, closed and cancelled included, stays held through every later
      run, and no verb on another budget can claim it there. */
  lemma KeysStayHeld(w: World, events: seq<Event>, b: BudgetId, key: LineKey, e: Event)
    requires AllDrawn(events) && Drawn(e.verb)
    requires b in w.db.budgets && w.db.budgets[b].status != Draft && Holds(w.db, b, key)
    ensures Holds(Run(w, events).db, b, key)
    ensures TargetBudget(e.verb) != b && Claims(Run(w, events).db, e.verb, key) ==> !Succeeds(Run(w, events).db, e.gl, e.verb)
  {
    var after := Run(w, events).db;
    FreezeOverRuns(w, events, b);
    SameLinesSameLive(w.db, after, b);
    var l :| l in LiveLinesOf(w.db, b) && KeyOf(w.db.lines[l]) == key;
    assert l in LiveLinesOf(after, b) && KeyOf(after.lines[l]) == key;
    if TargetBudget(e.verb) != b && Claims(after, e.verb, key) {
      HeldKeyRefuses(after, e.gl, e.verb, b, key);
    }
  }

  // ── the UI pre-check ───────────────────────────────────────────────────────

  /** In every state with sound rows, the coverage query finds a position on a key exactly when
      the write guard would refuse the key to a fresh budget. */
  lemma CoverageAgreesWithGuard(db: Db, key: LineKey, newId: BudgetId)
    requires RowsSound(db) && newId !in db.budgets
    ensures Coverage(db, key) != {} <==> KeyTaken(db, key, newId)
  {
    if KeyTaken(db, key, newId) {
      var l :| l in db.lines && !db.lines[l].deleted && KeyOf(db.lines[l]) == key && db.lines[l].budget != newId;
      assert LineSound(db, db.lines[l]) && Joined(db, l);
      assert PositionOf(db, l) in Coverage(db, key);
    }
    if Coverage(db, key) != {} {
      var pos :| pos in Coverage(db, key);
      assert LiveLine(db, pos.line) && KeyOf(db.lines[pos.line]) == key && db.lines[pos.line].budget != newId;
    }
  }

  /** The same for every state an atomic run reaches from a sound one. */
  lemma CoverageAgreesAfterRuns(w: World, events: seq<Event>, key: LineKey, newId: BudgetId)
    requires AllDrawn(events) && Invariant(w)
    requires newId !in Run(w, events).db.budgets
    ensures Coverage(Run(w, events).db, key) != {} <==> KeyTaken(Run(w, events).db, key, newId)
  {
    RunKeepsInvariant(w, events);
    CoverageAgreesWithGuard(Run(w, events).db, key, newId);
  }
}
