/** Which overlaps of verbs on one budget are harmless, promise by promise: the freeze of a
    budget that has left draft, the armed lines of a confirmed budget, and periods that fit
    it. Verbs on different budgets mix freely throughout. */
module Overlaps {
  import opened BudgetTypes
  import opened BudgetReads
  import opened BudgetWorkflow
  import opened AtomicRuns
  import opened Races

  predicate EditsLines(k: Task) {
    k.Adding? || k.Minting? || k.Updating? || k.Deleting?
  }

  predicate PatchesPosture(k: Task) {
    k.Patching? && k.patch.enforcement.Some?
  }

  predicate PatchesHeader(k: Task) {
    k.Patching? && k.patch.enforcement.None?
  }

  // ── the freeze ─────────────────────────────────────────────────────────────

  /** When a compare-and-set wins, no line verb on its budget is in progress, and when it closes or cancels,
      no enforcement patch either. */
  ghost predicate WinsAlone(s: System, a: Action) {
    a.Advance? && a.task in s.tasks && Next(s.db, s.tasks[a.task], a.gl, a.order).Win? ==>
      var change := Next(s.db, s.tasks[a.task], a.gl, a.order).change;
      forall u | u in s.tasks && BudgetOf(s.tasks[u]) == change.budget ::
        !EditsLines(s.tasks[u]) && (change.verb != ToConfirmed ==> !PatchesPosture(s.tasks[u]))
  }

  ghost predicate WinsAloneTrace(s: System, actions: seq<Action>)
    decreases |actions|
  {
    actions != [] ==> WinsAlone(s, actions[0]) && WinsAloneTrace(Perform(s, actions[0]), actions[1..])
  }

  /** What the task may still write, its budget allows. */
  ghost predicate MayWrite(db: Db, k: Task) {
    match k
    case Inserting(id, _, _, mine, _, _) => forall l | l in mine :: mine[l].budget == id
    case Patching(b, _, patch) => patch.enforcement.Some? ==> b in db.budgets && db.budgets[b].status in {Draft, Confirmed}
    case Transitioning(_, v, seen) => v != ToConfirmed && seen in AllowedFrom(v)
    case _ => EditsLines(k) ==> k.budget in db.budgets && db.budgets[k.budget].status == Draft
  }

  ghost predicate FreezeInvariant(s: System) {
    LinesHaveBudgets(s.db) && forall t | t in s.tasks :: MayWrite(s.db, s.tasks[t])
  }

  /** Whatever is out of draft has not moved where the freeze forbids it. */
  ghost predicate AllFrozen(db: Db, after: Db) {
    forall b | b in db.budgets && db.budgets[b].status != Draft :: Frozen(db, after, b)
  }

  lemma CommitFreezes(db: Db, k: Task, after: Db)
    requires LinesHaveBudgets(db) && MayWrite(db, k) && Writes(db, k, after)
    ensures LinesHaveBudgets(after) && AllFrozen(db, after)
  {
    CommitTouchesOwn(db, k, after);
    forall b | b in db.budgets && db.budgets[b].status != Draft ensures Frozen(db, after, b) {
      assert k.Patching? || b != BudgetOf(k);
    }
  }

  lemma CommitLeavesWrites(db: Db, k: Task, after: Db, j: Task)
    requires LinesHaveBudgets(db) && MayWrite(db, k) && Writes(db, k, after) && MayWrite(db, j)
    ensures MayWrite(after, j)
  {
    CommitTouchesOwn(db, k, after);
  }

  lemma WinFreezes(db: Db, k: Task, after: Db, change: Change)
    requires LinesHaveBudgets(db) && MayWrite(db, k) && Swaps(db, k, after, change)
    ensures LinesHaveBudgets(after) && AllFrozen(db, after)
    ensures forall j | MayWrite(db, j) :: MayWrite(after, j) ||
              (BudgetOf(j) == change.budget && (EditsLines(j) || (change.verb != ToConfirmed && PatchesPosture(j))))
  {
  }

  lemma StepFreezes(s: System, a: Action)
    requires FreezeInvariant(s) && WinsAlone(s, a)
    ensures FreezeInvariant(Perform(s, a)) && AllFrozen(s.db, Perform(s, a).db)
  {
    if a.Advance? && a.task in s.tasks {
      var k, o := s.tasks[a.task], Next(s.db, s.tasks[a.task], a.gl, a.order);
      if o.Continue? {
        ContinueMayWrite(s.db, k, a.gl, a.order);
      } else if o.Commit? {
        CommitWrites(s.db, k, a.gl, a.order);
        CommitFreezes(s.db, k, o.db);
        forall u | u in s.tasks ensures MayWrite(o.db, s.tasks[u]) {
          CommitLeavesWrites(s.db, k, o.db, s.tasks[u]);
        }
      } else if o.Win? {
        WinSwaps(s.db, k, a.gl, a.order);
        WinFreezes(s.db, k, o.after, o.change);
      }
    } else if a.Start? && Drawn(a.verb) && Begin(s.db, a.verb).Ok? {
      BegunMayWrite(s.db, a.verb);
    }
  }

  lemma ContinueMayWrite(db: Db, k: Task, gl: Gl, order: seq<LineId>)
    requires MayWrite(db, k) && Next(db, k, gl, order).Continue?
    ensures MayWrite(db, Next(db, k, gl, order).task)
  {
  }

  lemma BegunMayWrite(db: Db, v: Verb)
    requires Begin(db, v).Ok?
    ensures MayWrite(db, Begin(db, v).value)
  {
  }

  lemma {:induction false} FreezeFromHere(s: System, actions: seq<Action>, b: BudgetId)
    requires FreezeInvariant(s) && WinsAloneTrace(s, actions)
    requires b in s.db.budgets && s.db.budgets[b].status != Draft
    ensures Frozen(s.db, Trace(s, actions).db, b)
    decreases |actions|
  {
    if actions != [] {
      StepFreezes(s, actions[0]);
      assert Frozen(s.db, Perform(s, actions[0]).db, b);
      FreezeFromHere(Perform(s, actions[0]), actions[1..], b);
    }
  }

  lemma {:induction false} WinsAloneSplits(s: System, xs: seq<Action>, ys: seq<Action>)
    requires FreezeInvariant(s) && WinsAloneTrace(s, xs + ys)
    ensures FreezeInvariant(Trace(s, xs)) && WinsAloneTrace(Trace(s, xs), ys)
    decreases |xs|
  {
    if xs == [] {
      assert xs + ys == ys;
    } else {
      assert (xs + ys)[1..] == xs[1..] + ys;
      StepFreezes(s, xs[0]);
      WinsAloneSplits(Perform(s, xs[0]), xs[1..], ys);
    }
  }

  /** The freeze of atomic runs, under any overlap in which compare-and-sets win alone, between any two moments of a
      run: whatever budget is out of draft at the first keeps its identity, dates and lines, and if it is closed or
      cancelled there, its whole header. */
  lemma OverlapsFreeze(s: System, before: seq<Action>, after: seq<Action>)
    requires Quiet(s) && WinsAloneTrace(s, before + after)
    ensures AllFrozen(Trace(s, before).db, Trace(s, before + after).db)
  {
    WinsAloneSplits(s, before, after);
    TraceAppend(s, before, after);
    var mid := Trace(s, before);
    forall b | b in mid.db.budgets && mid.db.budgets[b].status != Draft ensures Frozen(mid.db, Trace(mid, after).db, b) {
      FreezeFromHere(mid, after, b);
    }
  }

  // ── armed budgets ──────────────────────────────────────────────────────────

  /** No line verb is in progress on a budget whose confirm has read its lines. Everything else may overlap. */
  ghost predicate Settled(s: System) {
    forall t, u | t in s.tasks && u in s.tasks && EditsLines(s.tasks[t]) && s.tasks[u].Confirming? ::
      BudgetOf(s.tasks[t]) != BudgetOf(s.tasks[u])
  }

  ghost predicate SettledTrace(s: System, actions: seq<Action>)
    decreases |actions|
  {
    Settled(s) && (actions != [] ==> SettledTrace(Perform(s, actions[0]), actions[1..]))
  }

  predicate PositiveSoFar(rows: seq<BudgetLine>, next: nat, ask: Check) {
    forall i | 0 <= i < |rows| && (i < next || (i == next && ask != AskAccount)) :: rows[i].planned > 0.0
  }

  /** The rows confirm has read are the live lines, and those past the amount check are positive; lines are edited
      only on budgets that were never confirmed. */
  ghost predicate ReadsStand(s: System, k: Task) {
    match k
    case Inserting(id, _, _, mine, _, _) => forall l | l in mine :: mine[l].budget == id
    case Transitioning(_, v, _) => v != ToConfirmed
    case Confirming(b, _, rows, next, ask) =>
      && b in s.db.budgets
      && next <= |rows| && rows != []
      && RowsAreLive(s.db, b, rows)
      && PositiveSoFar(rows, next, ask)
    case _ => EditsLines(k) ==> k.budget in s.db.budgets && k.budget !in s.ever
  }

  ghost predicate ArmedInvariant(s: System) {
    && LinesHaveBudgets(s.db)
    && (forall b | b in s.ever :: Armed(s.db, b))
    && (forall t | t in s.tasks :: ReadsStand(s, s.tasks[t]))
  }

  lemma SameLiveStaysArmed(db: Db, after: Db, b: BudgetId)
    requires Armed(db, b) && b in after.budgets && after.budgets[b].status != Draft
    requires LiveLinesOf(after, b) == LiveLinesOf(db, b) && forall l | l in LiveLinesOf(db, b) :: after.lines[l] == db.lines[l]
    ensures Armed(after, b)
  {
  }

  /** A write leaves the lines of every budget but its own, and of its own too unless it edits lines. */
  lemma WriteLeavesLines(db: Db, k: Task, after: Db, b: BudgetId)
    requires LinesHaveBudgets(db) && Writes(db, k, after)
    requires k.Inserting? ==> forall l | l in k.mine :: k.mine[l].budget == k.id
    requires k.Minting? ==> k.budget in db.budgets
    requires b in db.budgets && !(EditsLines(k) && k.budget == b)
    ensures b in after.budgets && after.budgets[b].status == db.budgets[b].status
    ensures LiveLinesOf(after, b) == LiveLinesOf(db, b) && forall l | l in LiveLinesOf(db, b) :: after.lines[l] == db.lines[l]
  {
    CommitTouchesOwn(db, k, after);
    if b != BudgetOf(k) {
      TouchedElsewhere(db, after, BudgetOf(k), b);
    }
  }

  lemma CommitKeepsArmed(s: System, t: TaskId, after: System)
    requires ArmedInvariant(s) && Settled(s) && t in s.tasks
    requires Writes(s.db, s.tasks[t], after.db) && after.tasks == s.tasks - {t} && after.ever == s.ever
    ensures ArmedInvariant(after)
  {
    var k := s.tasks[t];
    CommitTouchesOwn(s.db, k, after.db);
    forall b | b in s.ever ensures Armed(after.db, b) {
      WriteLeavesLines(s.db, k, after.db, b);
      SameLiveStaysArmed(s.db, after.db, b);
    }
    forall u | u in after.tasks ensures ReadsStand(after, after.tasks[u]) {
      assert ReadsStand(s, s.tasks[u]);
      if s.tasks[u].Confirming? {
        WriteLeavesLines(s.db, k, after.db, s.tasks[u].budget);
      }
    }
  }

  lemma CheckedRowsArm(db: Db, b: BudgetId, rows: seq<BudgetLine>)
    requires b in db.budgets && rows != [] && RowsAreLive(db, b, rows)
    requires forall i | 0 <= i < |rows| :: rows[i].planned > 0.0
    ensures Armed(WithStatus(db, b, Confirmed), b)
  {
    assert LiveLinesOf(WithStatus(db, b, Confirmed), b) == LiveLinesOf(db, b);
    assert rows[0] in rows;
    forall l | l in LiveLinesOf(db, b) ensures db.lines[l].planned > 0.0 {
      assert db.lines[l] in rows;
    }
  }

  lemma WinKeepsArmed(s: System, t: TaskId, after: System, change: Change)
    requires ArmedInvariant(s) && Settled(s) && t in s.tasks
    requires Swaps(s.db, s.tasks[t], after.db, change)
    requires after.tasks == s.tasks - {t} && after.ever == s.ever + if change.verb == ToConfirmed then {change.budget} else {}
    ensures ArmedInvariant(after)
  {
    var k := s.tasks[t];
    assert forall c :: LiveLinesOf(after.db, c) == LiveLinesOf(s.db, c);
    forall b | b in after.ever ensures Armed(after.db, b) {
      if b in s.ever {
        SameLiveStaysArmed(s.db, after.db, b);
      } else {
        CheckedRowsArm(s.db, b, k.rows);
      }
    }
    forall u | u in after.tasks ensures ReadsStand(after, after.tasks[u]) {
      assert ReadsStand(s, s.tasks[u]);
      assert EditsLines(s.tasks[u]) && k.Confirming? ==> BudgetOf(s.tasks[u]) != change.budget;
    }
  }

  lemma ContinueReadsStand(s: System, k: Task, gl: Gl, order: seq<LineId>)
    requires LinesHaveBudgets(s.db) && ReadsStand(s, k) && Next(s.db, k, gl, order).Continue?
    ensures ReadsStand(s, Next(s.db, k, gl, order).task)
  {
    if k.ReadingLines? && IsLineOrder(s.db, k.budget, order) {
      RowsInAreLive(s.db, k.budget, order);
      assert order[0] in LiveLinesOf(s.db, k.budget);
    }
  }

  lemma BegunReadsStand(s: System, v: Verb)
    requires ArmedInvariant(s) && Begin(s.db, v).Ok?
    ensures ReadsStand(s, Begin(s.db, v).value)
  {
  }

  lemma StepKeepsArmed(s: System, a: Action)
    requires ArmedInvariant(s) && Settled(s)
    ensures ArmedInvariant(Perform(s, a))
  {
    if a.Advance? && a.task in s.tasks {
      var k, o := s.tasks[a.task], Next(s.db, s.tasks[a.task], a.gl, a.order);
      if o.Continue? {
        ContinueReadsStand(s, k, a.gl, a.order);
      } else if o.Commit? {
        CommitWrites(s.db, k, a.gl, a.order);
        CommitKeepsArmed(s, a.task, Perform(s, a));
      } else if o.Win? {
        WinSwaps(s.db, k, a.gl, a.order);
        WinKeepsArmed(s, a.task, Perform(s, a), o.change);
      }
    } else if a.Start? && Drawn(a.verb) && Begin(s.db, a.verb).Ok? {
      BegunReadsStand(s, a.verb);
    }
  }

  /** In every settled interleaving, an ever-confirmed budget keeps at least one live line, all with a positive amount. */
  lemma {:induction false} SettledTracesKeepArmed(s: System, actions: seq<Action>)
    requires ArmedInvariant(s) && SettledTrace(s, actions)
    ensures ArmedInvariant(Trace(s, actions))
    ensures forall b | b in Trace(s, actions).ever :: Armed(Trace(s, actions).db, b)
    decreases |actions|
  {
    if actions != [] {
      StepKeepsArmed(s, actions[0]);
      SettledTracesKeepArmed(Perform(s, actions[0]), actions[1..]);
    }
  }

  lemma {:induction false} SettledIsClear(s: System, actions: seq<Action>)
    requires SettledTrace(s, actions)
    ensures ClearTrace(s, actions)
    decreases |actions|
  {
    if actions != [] {
      SettledIsClear(Perform(s, actions[0]), actions[1..]);
    }
  }

  // ── periods that fit ───────────────────────────────────────────────────────

  /** Besides line verbs, no header patch is in progress on a budget that is being confirmed. */
  ghost predicate Steady(s: System) {
    && Settled(s)
    && forall t, u | t in s.tasks && u in s.tasks && PatchesHeader(s.tasks[t]) && (s.tasks[u].ReadingLines? || s.tasks[u].Confirming?) ::
         BudgetOf(s.tasks[t]) != BudgetOf(s.tasks[u])
  }

  ghost predicate SteadyTrace(s: System, actions: seq<Action>)
    decreases |actions|
  {
    Steady(s) && (actions != [] ==> SteadyTrace(Perform(s, actions[0]), actions[1..]))
  }

  predicate SameFrame(h: Budget, g: Budget) {
    h.fiscalYear == g.fiscalYear && h.dateFrom == g.dateFrom && h.dateTo == g.dateTo
  }

  predicate FitsSoFar(periods: map<PeriodId, Period>, header: Budget, rows: seq<BudgetLine>, next: nat, ask: Check) {
    forall i | 0 <= i < |rows| && (i < next || (i == next && ask == AskKey)) :: PeriodFits(periods, header, rows[i])
  }

  /** The header confirm has read still frames the budget, and the rows past the period check fit it. */
  predicate FrameStands(periods: map<PeriodId, Period>, db: Db, k: Task) {
    match k
    case ReadingLines(b, header) => b in db.budgets && SameFrame(header, db.budgets[b])
    case Confirming(b, header, rows, next, ask) =>
      b in db.budgets && SameFrame(header, db.budgets[b]) && FitsSoFar(periods, header, rows, next, ask)
    case _ => true
  }

  ghost predicate PeriodInvariant(periods: map<PeriodId, Period>, s: System) {
    && ArmedInvariant(s)
    && (forall b | b in s.ever :: PeriodsFit(periods, s.db, b))
    && (forall t | t in s.tasks :: FrameStands(periods, s.db, s.tasks[t]))
  }

  predicate PeriodsFixed(periods: map<PeriodId, Period>, a: Action) {
    a.Advance? ==> a.gl.periods == periods
  }

  /** A write keeps the frame of every budget but its own, and of its own too unless it is a header patch of a draft. */
  lemma WriteLeavesFrame(db: Db, k: Task, after: Db, b: BudgetId)
    requires Writes(db, k, after) && b in db.budgets
    requires PatchesHeader(k) && k.budget == b ==> db.budgets[b].status != Draft
    ensures b in after.budgets && SameFrame(after.budgets[b], db.budgets[b])
  {
  }

  lemma FitsUnderSameFrame(periods: map<PeriodId, Period>, db: Db, after: Db, b: BudgetId)
    requires PeriodsFit(periods, db, b)
    requires b in after.budgets && SameFrame(after.budgets[b], db.budgets[b])
    requires LiveLinesOf(after, b) == LiveLinesOf(db, b) && forall l | l in LiveLinesOf(db, b) :: after.lines[l] == db.lines[l]
    ensures PeriodsFit(periods, after, b)
  {
  }

  lemma CommitKeepsPeriods(periods: map<PeriodId, Period>, s: System, t: TaskId, after: System)
    requires PeriodInvariant(periods, s) && Steady(s) && t in s.tasks
    requires Writes(s.db, s.tasks[t], after.db) && after.tasks == s.tasks - {t} && after.ever == s.ever
    ensures PeriodInvariant(periods, after)
  {
    var k := s.tasks[t];
    CommitKeepsArmed(s, t, after);
    forall b | b in s.ever ensures PeriodsFit(periods, after.db, b) {
      WriteLeavesLines(s.db, k, after.db, b);
      WriteLeavesFrame(s.db, k, after.db, b);
      FitsUnderSameFrame(periods, s.db, after.db, b);
    }
    forall u | u in after.tasks ensures FrameStands(periods, after.db, after.tasks[u]) {
      assert FrameStands(periods, s.db, s.tasks[u]);
      if s.tasks[u].ReadingLines? || s.tasks[u].Confirming? {
        WriteLeavesFrame(s.db, k, after.db, s.tasks[u].budget);
      }
    }
  }

  lemma WinKeepsPeriods(periods: map<PeriodId, Period>, s: System, t: TaskId, after: System, change: Change)
    requires PeriodInvariant(periods, s) && Steady(s) && t in s.tasks
    requires Swaps(s.db, s.tasks[t], after.db, change)
    requires after.tasks == s.tasks - {t} && after.ever == s.ever + if change.verb == ToConfirmed then {change.budget} else {}
    ensures PeriodInvariant(periods, after)
  {
    var k := s.tasks[t];
    WinKeepsArmed(s, t, after, change);
    assert forall c :: LiveLinesOf(after.db, c) == LiveLinesOf(s.db, c);
    forall b | b in after.ever ensures PeriodsFit(periods, after.db, b) {
      if b in s.ever {
        FitsUnderSameFrame(periods, s.db, after.db, b);
      } else {
        assert FrameStands(periods, s.db, k) && ReadsStand(s, k);
        forall l | l in LiveLinesOf(s.db, b) ensures PeriodFits(periods, after.db.budgets[b], s.db.lines[l]) {
          assert s.db.lines[l] in k.rows;
        }
      }
    }
  }

  lemma ContinueFrameStands(periods: map<PeriodId, Period>, db: Db, k: Task, gl: Gl, order: seq<LineId>)
    requires gl.periods == periods && FrameStands(periods, db, k) && Next(db, k, gl, order).Continue?
    ensures FrameStands(periods, db, Next(db, k, gl, order).task)
  {
  }

  lemma BegunFrameStands(periods: map<PeriodId, Period>, db: Db, v: Verb)
    requires Begin(db, v).Ok?
    ensures FrameStands(periods, db, Begin(db, v).value)
  {
  }

  lemma StepKeepsPeriods(periods: map<PeriodId, Period>, s: System, a: Action)
    requires PeriodInvariant(periods, s) && Steady(s) && PeriodsFixed(periods, a)
    ensures PeriodInvariant(periods, Perform(s, a))
  {
    StepKeepsArmed(s, a);
    if a.Advance? && a.task in s.tasks {
      var k, o := s.tasks[a.task], Next(s.db, s.tasks[a.task], a.gl, a.order);
      if o.Continue? {
        ContinueFrameStands(periods, s.db, k, a.gl, a.order);
      } else if o.Commit? {
        CommitWrites(s.db, k, a.gl, a.order);
        CommitKeepsPeriods(periods, s, a.task, Perform(s, a));
      } else if o.Win? {
        WinSwaps(s.db, k, a.gl, a.order);
        WinKeepsPeriods(periods, s, a.task, Perform(s, a), o.change);
      }
    } else if a.Start? && Drawn(a.verb) && Begin(s.db, a.verb).Ok? {
      BegunFrameStands(periods, s.db, a.verb);
    }
  }

  /** With the fiscal periods unchanged (accounts and cost centers may change before every step), every live line of
      every ever-confirmed budget stays inside its header's year and dates, in every steady interleaving. */
  lemma {:induction false} SteadyTracesKeepFitting(periods: map<PeriodId, Period>, s: System, actions: seq<Action>)
    requires PeriodInvariant(periods, s) && SteadyTrace(s, actions)
    requires forall a | a in actions :: PeriodsFixed(periods, a)
    ensures forall b | b in Trace(s, actions).ever :: PeriodsFit(periods, Trace(s, actions).db, b)
    decreases |actions|
  {
    if actions != [] {
      assert actions[0] in actions;
      StepKeepsPeriods(periods, s, actions[0]);
      SteadyTracesKeepFitting(periods, Perform(s, actions[0]), actions[1..]);
    }
  }

  // ── no overlap at all ──────────────────────────────────────────────────────

  /** No two verbs in progress are on the same budget. */
  ghost predicate Serial(s: System) {
    forall t, u | t in s.tasks && u in s.tasks && t != u :: BudgetOf(s.tasks[t]) != BudgetOf(s.tasks[u])
  }

  ghost predicate SerialTrace(s: System, actions: seq<Action>)
    decreases |actions|
  {
    Serial(s) && (actions != [] ==> SerialTrace(Perform(s, actions[0]), actions[1..]))
  }

  lemma SerialWinsAlone(s: System, a: Action)
    requires Serial(s)
    ensures WinsAlone(s, a) && Steady(s)
  {
    if a.Advance? && a.task in s.tasks && Next(s.db, s.tasks[a.task], a.gl, a.order).Win? {
      WinSwaps(s.db, s.tasks[a.task], a.gl, a.order);
    }
  }

  lemma {:induction false} SerialMeetsAll(s: System, actions: seq<Action>)
    requires SerialTrace(s, actions)
    ensures WinsAloneTrace(s, actions) && SettledTrace(s, actions) && SteadyTrace(s, actions)
    decreases |actions|
  {
    SerialWinsAlone(s, Abandon(0));
    if actions != [] {
      SerialWinsAlone(s, actions[0]);
      SerialMeetsAll(Perform(s, actions[0]), actions[1..]);
    }
  }

  /** Callers that keep verbs on one budget apart get all of it: from any quiet state whose ever-confirmed budgets are
      armed, the freeze between any two moments, and armed budgets and exclusivity at every moment. */
  lemma SerialTracesKeepAll(s: System, before: seq<Action>, after: seq<Action>)
    requires Quiet(s) && SerialTrace(s, before + after)
    requires forall b | b in s.ever :: Armed(s.db, b)
    ensures var end := Trace(s, before + after);
            && AllFrozen(Trace(s, before).db, end.db)
            && (forall b | b in end.ever :: Armed(end.db, b))
            && Exclusive(end)
  {
    SerialMeetsAll(s, before + after);
    OverlapsFreeze(s, before, after);
    SettledTracesKeepArmed(s, before + after);
    SettledIsClear(s, before + after);
    ConfirmRestoresExclusivity(s, before + after);
  }
}
