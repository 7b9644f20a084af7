/** Runs that show the limits of the race theorems: drafts can share a key, and verbs that
    overlap on one budget can break exclusivity, the freeze, armed lines and fitting periods;
    and a run in which a confirm loses. */
module RaceWitnesses {
  import opened BudgetTypes
  import opened BudgetReads
  import opened BudgetWorkflow
  import opened AtomicRuns
  import opened Races
  import opened Overlaps

  lemma TraceChain(s: System, a: seq<Action>, s1: System, b: seq<Action>, s2: System, c: seq<Action>, s3: System, d: seq<Action>, s4: System, e: seq<Action>)
    requires Trace(s, a) == s1 && Trace(s1, b) == s2 && Trace(s2, c) == s3 && Trace(s3, d) == s4
    ensures Trace(s, a + (b + (c + (d + e)))) == Trace(s4, e)
  {
    TraceAppend(s, a, b + (c + (d + e)));
    TraceAppend(s1, b, c + (d + e));
    TraceAppend(s2, c, d + e);
    TraceAppend(s3, d, e);
  }

  lemma {:induction false} SerialAppend(s: System, xs: seq<Action>, ys: seq<Action>)
    requires SerialTrace(s, xs) && SerialTrace(Trace(s, xs), ys)
    ensures SerialTrace(s, xs + ys)
    decreases |xs|
  {
    if xs == [] {
      assert xs + ys == ys;
    } else {
      assert (xs + ys)[1..] == xs[1..] + ys;
      SerialAppend(Perform(s, xs[0]), xs[1..], ys);
    }
  }

  lemma OneStep(s: System, a: Action)
    ensures Trace(s, [a]) == Perform(s, a)
    ensures Serial(s) && Serial(Perform(s, a)) ==> SerialTrace(s, [a])
  {
  }

  /** The state with one task in it. */
  function Holding(s: System, t: TaskId, k: Task): System {
    s.(tasks := s.tasks[t := k])
  }

  /** One task steps through a sequence of its states while nothing else moves. */
  lemma {:induction false} Walk(s: System, t: TaskId, ks: seq<Task>, actions: seq<Action>)
    requires |ks| == |actions| + 1
    requires forall i | 0 <= i < |actions| ::
               && actions[i].Advance?
               && actions[i].task == t
               && Next(s.db, ks[i], actions[i].gl, actions[i].order) == Continue(ks[i + 1])
    ensures Trace(Holding(s, t, ks[0]), actions) == Holding(s, t, ks[|actions|])
    ensures Serial(Holding(s, t, ks[0])) && (forall k | k in ks :: BudgetOf(k) == BudgetOf(ks[0])) ==>
              SerialTrace(Holding(s, t, ks[0]), actions)
    decreases |actions|
  {
    if actions != [] {
      var from, to := Holding(s, t, ks[0]), Holding(s, t, ks[1]);
      assert Perform(from, actions[0]).tasks == to.tasks;
      assert Perform(from, actions[0]) == to;
      Walk(s, t, ks[1..], actions[1..]);
      if forall k | k in ks :: BudgetOf(k) == BudgetOf(ks[0]) {
        assert ks[1] in ks && forall k | k in ks[1..] :: k in ks;
        assert Serial(from) ==> Serial(to);
      }
    }
  }

  const MINT := Period(1, 31, 2026, Some(1), false)
  const MASTERS := Gl(true,
    map[1 := Account(true, false, true, false, DebitNormal), 2 := Account(true, false, true, false, DebitNormal)],
    map[], map[7 := MINT])

  function HeaderNamed(code: string): Budget {
    Budget(code, code, None, 2026, 1, 31, Draft, Block, false)
  }

  /** A line on account 1. */
  const CONTESTED := NewBudgetLine(1, None, 7, 100.0, None)
  const ROW_A := BudgetLine(1, 1, None, 7, 2026, Some(1), 100.0, None, false)
  const ROW_B := BudgetLine(2, 1, None, 7, 2026, Some(1), 100.0, None, false)
  /** A line of budget 1 on account 2. */
  const ROW_OTHER := BudgetLine(1, 2, None, 7, 2026, Some(1), 100.0, None, false)

  /** Budget 1 is a draft with a line on account 2; budget 2 is an empty draft. */
  const BEGUN := System(Db(map[1 := HeaderNamed("A"), 2 := HeaderNamed("B")], map[4 := ROW_OTHER]), map[], {}, [])

  function Go(t: TaskId): Action {
    Advance(t, MASTERS, [])
  }

  /** An add_line up to, but not including, its insert. */
  function AddUpToInsert(t: TaskId, b: BudgetId, id: LineId): seq<Action> {
    [Start(t, AddLine(b, id, CONTESTED))] + [Go(t), Go(t), Go(t), Go(t), Go(t)]
  }

  lemma AddAsks(db: Db, b: BudgetId, id: LineId, ask: Check)
    requires InDraft(db, b) && !KeyTaken(db, KeyOfNew(CONTESTED), b)
    requires db.budgets[b].fiscalYear == 2026 && db.budgets[b].dateFrom == 1 && db.budgets[b].dateTo == 31
    ensures Next(db, Adding(b, db.budgets[b], id, CONTESTED, ask), MASTERS, [])
         == Continue(if ask == AskKey then Minting(b, id, CONTESTED, None) else Adding(b, db.budgets[b], id, CONTESTED, Following(ask)))
  {
  }

  lemma AddMints(db: Db, b: BudgetId, id: LineId)
    ensures Next(db, Minting(b, id, CONTESTED, None), MASTERS, []) == Continue(Minting(b, id, CONTESTED, Some(MINT)))
  {
  }

  lemma AddReachesInsert(s: System, t: TaskId, b: BudgetId, id: LineId)
    requires t !in s.tasks && InDraft(s.db, b)
    requires s.db.budgets[b].fiscalYear == 2026 && s.db.budgets[b].dateFrom == 1 && s.db.budgets[b].dateTo == 31
    requires !KeyTaken(s.db, KeyOfNew(CONTESTED), b)
    ensures Trace(s, AddUpToInsert(t, b, id)) == Holding(s, t, Minting(b, id, CONTESTED, Some(MINT)))
    ensures Serial(Holding(s, t, Minting(b, id, CONTESTED, Some(MINT)))) ==> SerialTrace(s, AddUpToInsert(t, b, id))
  {
    var header := s.db.budgets[b];
    var first, last := Adding(b, header, id, CONTESTED, AskAccount), Minting(b, id, CONTESTED, Some(MINT));
    var start, walk := Start(t, AddLine(b, id, CONTESTED)), [Go(t), Go(t), Go(t), Go(t), Go(t)];
    AddWalks(s, t, b, id);
    assert Perform(s, start) == Holding(s, t, first);
    OneStep(s, start);
    TraceAppend(s, [start], walk);
    if Serial(Holding(s, t, last)) {
      SameBudgetsSerial(Holding(s, t, last), Holding(s, t, first));
      SameBudgetsSerial(Holding(s, t, last), s);
      SerialAppend(s, [start], walk);
    }
  }

  lemma AddWalks(s: System, t: TaskId, b: BudgetId, id: LineId)
    requires InDraft(s.db, b) && !KeyTaken(s.db, KeyOfNew(CONTESTED), b)
    requires s.db.budgets[b].fiscalYear == 2026 && s.db.budgets[b].dateFrom == 1 && s.db.budgets[b].dateTo == 31
    ensures var first, walk := Holding(s, t, Adding(b, s.db.budgets[b], id, CONTESTED, AskAccount)), [Go(t), Go(t), Go(t), Go(t), Go(t)];
            && Trace(first, walk) == Holding(s, t, Minting(b, id, CONTESTED, Some(MINT)))
            && (Serial(first) ==> SerialTrace(first, walk))
  {
    var header := s.db.budgets[b];
    var ks := [Adding(b, header, id, CONTESTED, AskAccount), Adding(b, header, id, CONTESTED, AskCostCenter),
               Adding(b, header, id, CONTESTED, AskPeriod), Adding(b, header, id, CONTESTED, AskKey),
               Minting(b, id, CONTESTED, None), Minting(b, id, CONTESTED, Some(MINT))];
    AddAsks(s.db, b, id, AskAccount);
    AddAsks(s.db, b, id, AskCostCenter);
    AddAsks(s.db, b, id, AskPeriod);
    AddAsks(s.db, b, id, AskKey);
    AddMints(s.db, b, id);
    Walk(s, t, ks, [Go(t), Go(t), Go(t), Go(t), Go(t)]);
  }

  lemma SameBudgetsSerial(s: System, r: System)
    requires Serial(s)
    requires forall t | t in r.tasks :: t in s.tasks && BudgetOf(r.tasks[t]) == BudgetOf(s.tasks[t])
    ensures Serial(r)
  {
  }

  lemma AddInserts(s: System, t: TaskId, b: BudgetId, id: LineId, row: BudgetLine)
    requires t in s.tasks && s.tasks[t] == Minting(b, id, CONTESTED, Some(MINT))
    requires id !in s.db.lines && row == BudgetLine(b, 1, None, 7, 2026, Some(1), 100.0, None, false)
    ensures Trace(s, [Go(t)]) == s.(db := s.db.(lines := s.db.lines[id := row]), tasks := s.tasks - {t})
    ensures Serial(s) ==> SerialTrace(s, [Go(t)])
  {
  }

  /** A confirm up to, but not including, its compare-and-set. */
  function ConfirmUpToSwap(t: TaskId, b: BudgetId, l: LineId): seq<Action> {
    [Start(t, Confirm(b))] + [Advance(t, MASTERS, [l]), Go(t), Go(t), Go(t), Go(t)]
  }

  function ConfirmSteps(t: TaskId, b: BudgetId, l: LineId): seq<Action> {
    ConfirmUpToSwap(t, b, l) + [Go(t)]
  }

  /** A budget with one line that every guard lets through. */
  ghost predicate OneSoundLine(db: Db, b: BudgetId, l: LineId) {
    && InDraft(db, b)
    && LiveLinesOf(db, b) == {l}
    && LineRefusal(MASTERS, db.budgets[b], Candidate(db.lines[l])).None?
    && !KeyTaken(db, KeyOf(db.lines[l]), b)
  }

  lemma ConfirmReads(db: Db, b: BudgetId, l: LineId)
    requires OneSoundLine(db, b, l)
    ensures l in db.lines
    ensures Next(db, ReadingLines(b, db.budgets[b]), MASTERS, [l]) == Continue(Confirming(b, db.budgets[b], [db.lines[l]], 0, AskAccount))
  {
    assert l in LiveLinesOf(db, b);
    assert IsLineOrder(db, b, [l]) && RowsIn(db, [l]) == [db.lines[l]];
  }

  lemma ConfirmAsks(db: Db, b: BudgetId, l: LineId, ask: Check)
    requires OneSoundLine(db, b, l) && l in db.lines
    ensures Next(db, Confirming(b, db.budgets[b], [db.lines[l]], 0, ask), MASTERS, [])
         == Continue(Confirming(b, db.budgets[b], [db.lines[l]], LineAfter(0, ask), Following(ask)))
  {
    assert KeyOfNew(Candidate(db.lines[l])) == KeyOf(db.lines[l]);
  }

  /** A confirm of a budget with one sound line, past all its checks. */
  function Checked(db: Db, b: BudgetId, l: LineId): Task
    requires b in db.budgets && l in db.lines
  {
    Confirming(b, db.budgets[b], [db.lines[l]], 1, AskAccount)
  }

  lemma ConfirmReachesSwap(s: System, t: TaskId, b: BudgetId, l: LineId)
    requires t !in s.tasks && OneSoundLine(s.db, b, l) && l in s.db.lines
    ensures Trace(s, ConfirmUpToSwap(t, b, l)) == Holding(s, t, Checked(s.db, b, l))
  {
    ConfirmReads(s.db, b, l);
    var header, rows := s.db.budgets[b], [s.db.lines[l]];
    var ks := [ReadingLines(b, header), Confirming(b, header, rows, 0, AskAccount), Confirming(b, header, rows, 0, AskCostCenter),
               Confirming(b, header, rows, 0, AskPeriod), Confirming(b, header, rows, 0, AskKey), Confirming(b, header, rows, 1, AskAccount)];
    forall ask: Check ensures Next(s.db, Confirming(b, header, rows, 0, ask), MASTERS, [])
                           == Continue(Confirming(b, header, rows, LineAfter(0, ask), Following(ask)))
    {
      ConfirmAsks(s.db, b, l, ask);
    }
    var start, walk := Start(t, Confirm(b)), [Advance(t, MASTERS, [l]), Go(t), Go(t), Go(t), Go(t)];
    Walk(s, t, ks, walk);
    assert Perform(s, start) == Holding(s, t, ks[0]);
    OneStep(s, start);
    TraceAppend(s, [start], walk);
  }

  lemma ConfirmSwaps(s: System, t: TaskId, b: BudgetId, header: Budget, rows: seq<BudgetLine>)
    requires t !in s.tasks && InDraft(s.db, b) && |rows| == 1
    ensures Trace(Holding(s, t, Confirming(b, header, rows, 1, AskAccount)), [Go(t)])
         == System(WithStatus(s.db, b, Confirmed), s.tasks, s.ever + {b}, s.log + [Change(b, ToConfirmed, Draft)])
  {
    var last := Holding(s, t, Confirming(b, header, rows, 1, AskAccount));
    OneStep(last, Go(t));
    assert Perform(last, Go(t)).tasks == s.tasks;
  }

  /** A confirm of a budget with one sound line, nothing in between, wins. */
  lemma ConfirmWins(s: System, t: TaskId, b: BudgetId, l: LineId)
    requires t !in s.tasks && OneSoundLine(s.db, b, l)
    ensures Trace(s, ConfirmSteps(t, b, l))
         == System(WithStatus(s.db, b, Confirmed), s.tasks, s.ever + {b}, s.log + [Change(b, ToConfirmed, Draft)])
  {
    ConfirmReads(s.db, b, l);
    ConfirmReachesSwap(s, t, b, l);
    ConfirmSwaps(s, t, b, s.db.budgets[b], [s.db.lines[l]]);
    TraceAppend(s, ConfirmUpToSwap(t, b, l), [Go(t)]);
  }

  const TASK_A := Minting(1, 10, CONTESTED, Some(MINT))
  const TASK_B := Minting(2, 11, CONTESTED, Some(MINT))

  /** Budget 1's add_line has passed its checks and waits to insert. */
  const A_WAITS := System(BEGUN.db, map[1 := TASK_A], {}, [])

  /** Budget 2's line is in; budget 1's still waits. */
  const B_INSERTED := System(Db(BEGUN.db.budgets, map[4 := ROW_OTHER, 11 := ROW_B]), map[1 := TASK_A], {}, [])

  lemma AWaits()
    ensures Trace(BEGUN, AddUpToInsert(1, 1, 10)) == A_WAITS
    ensures SerialTrace(BEGUN, AddUpToInsert(1, 1, 10))
  {
    AddReachesInsert(BEGUN, 1, 1, 10);
    assert BEGUN.tasks[1 := TASK_A] == A_WAITS.tasks;
  }

  lemma BothWait()
    ensures var both := Holding(A_WAITS, 2, TASK_B);
            Serial(both) && Trace(both, [Go(2)]) == B_INSERTED && SerialTrace(both, [Go(2)])
  {
    var both := Holding(A_WAITS, 2, TASK_B);
    AddInserts(both, 2, 2, 11, ROW_B);
    assert both.tasks - {2} == A_WAITS.tasks;
    assert BEGUN.db.lines[11 := ROW_B] == B_INSERTED.db.lines;
  }

  lemma BInserts()
    ensures Trace(A_WAITS, AddUpToInsert(2, 2, 11) + [Go(2)]) == B_INSERTED
    ensures SerialTrace(A_WAITS, AddUpToInsert(2, 2, 11) + [Go(2)])
  {
    AddReachesInsert(A_WAITS, 2, 2, 11);
    BothWait();
    TraceAppend(A_WAITS, AddUpToInsert(2, 2, 11), [Go(2)]);
    SerialAppend(A_WAITS, AddUpToInsert(2, 2, 11), [Go(2)]);
  }

  /** Two add_lines on different drafts, both past their key checks, then both inserted: the drafts share a live
      key, although every verb checked for it and no two verbs were on one budget. */
  lemma RacingDraftsShareAKey() returns (s: System, actions: seq<Action>)
    ensures Quiet(s) && SerialTrace(s, actions)
    ensures KeysExclusive(s.db) && !KeysExclusive(Trace(s, actions).db)
  {
    s := BEGUN;
    BegunIsQuiet();
    var first, second := AddUpToInsert(1, 1, 10), AddUpToInsert(2, 2, 11) + [Go(2)];
    AWaits();
    BInserts();
    SecondInsertShares();
    actions := first + (second + [Go(1)]);
    TraceAppend(A_WAITS, second, [Go(1)]);
    TraceAppend(s, first, second + [Go(1)]);
    SerialAppend(A_WAITS, second, [Go(1)]);
    SerialAppend(s, first, second + [Go(1)]);
  }

  lemma SecondInsertShares()
    ensures SerialTrace(B_INSERTED, [Go(1)]) && !KeysExclusive(Trace(B_INSERTED, [Go(1)]).db)
  {
    AddInserts(B_INSERTED, 1, 1, 10, ROW_A);
    var db := Trace(B_INSERTED, [Go(1)]).db;
    assert LiveLine(db, 10) && LiveLine(db, 11) && KeyOf(db.lines[10]) == KeyOf(db.lines[11]);
  }

  const B_CONFIRMED := System(WithStatus(B_INSERTED.db, 2, Confirmed), map[1 := TASK_A], {2}, [Change(2, ToConfirmed, Draft)])
  const BOTH_CONFIRMED := System(WithStatus(B_CONFIRMED.db, 1, Confirmed), map[1 := TASK_A], {1, 2},
    [Change(2, ToConfirmed, Draft), Change(1, ToConfirmed, Draft)])

  lemma BIsSound()
    ensures OneSoundLine(B_INSERTED.db, 2, 11)
  {
    assert LiveLinesOf(B_INSERTED.db, 2) == {11};
  }

  lemma AIsSound()
    ensures OneSoundLine(B_CONFIRMED.db, 1, 4)
  {
    assert LiveLinesOf(B_CONFIRMED.db, 1) == {4};
  }

  lemma BConfirms()
    ensures Trace(B_INSERTED, ConfirmSteps(2, 2, 11)) == B_CONFIRMED
  {
    BIsSound();
    ConfirmWins(B_INSERTED, 2, 2, 11);
  }

  lemma AConfirms()
    ensures Trace(B_CONFIRMED, ConfirmSteps(3, 1, 4)) == BOTH_CONFIRMED
  {
    AIsSound();
    ConfirmWins(B_CONFIRMED, 3, 1, 4);
  }

  /** Without the condition on add_line and confirm, exclusivity fails: an add_line that read its budget as a draft
      inserts after that budget's confirm has won, on a key another budget was confirmed with. */
  lemma OverlapOnOneBudgetBreaksExclusivity() returns (s: System, actions: seq<Action>)
    ensures Quiet(s) && !ClearTrace(s, actions)
    ensures !Exclusive(Trace(s, actions))
  {
    s := BEGUN;
    BegunIsQuiet();
    var first, second := AddUpToInsert(1, 1, 10), AddUpToInsert(2, 2, 11) + [Go(2)];
    var third, fourth := ConfirmSteps(2, 2, 11), ConfirmSteps(3, 1, 4);
    actions := first + (second + (third + (fourth + [Go(1)])));
    AWaits();
    BInserts();
    BConfirms();
    AConfirms();
    TraceChain(BEGUN, first, A_WAITS, second, B_INSERTED, third, B_CONFIRMED, fourth, BOTH_CONFIRMED, [Go(1)]);
    LateInsertShares();
    NotClear(s, actions);
  }

  lemma BegunIsQuiet()
    ensures Quiet(BEGUN)
  {
  }

  lemma LateInsertShares()
    ensures !Exclusive(Trace(BOTH_CONFIRMED, [Go(1)]))
  {
    AddInserts(BOTH_CONFIRMED, 1, 1, 10, ROW_A);
    SharedByBoth(Trace(BOTH_CONFIRMED, [Go(1)]));
  }

  lemma NotClear(s: System, actions: seq<Action>)
    requires Quiet(s) && !Exclusive(Trace(s, actions))
    ensures !ClearTrace(s, actions)
  {
    if ClearTrace(s, actions) {
      ConfirmRestoresExclusivity(s, actions);
    }
  }

  lemma SharedByBoth(s: System)
    requires 1 in s.ever && 2 in s.ever
    requires 10 in s.db.lines && s.db.lines[10] == ROW_A
    requires 11 in s.db.lines && s.db.lines[11] == ROW_B
    ensures !Exclusive(s)
  {
    var key := KeyOfNew(CONTESTED);
    assert 10 in LiveLinesOf(s.db, 1) && KeyOf(ROW_A) == key && Holds(s.db, 1, key);
    assert 11 in LiveLinesOf(s.db, 2) && KeyOf(ROW_B) == key && Holds(s.db, 2, key);
  }

  // ── a confirm that loses ───────────────────────────────────────────────────

  lemma BegunIsSoundLine()
    ensures OneSoundLine(BEGUN.db, 1, 4)
  {
    assert LiveLinesOf(BEGUN.db, 1) == {4};
  }

  /** Budget 1's confirm has passed its checks and waits for its compare-and-set. */
  const PASSED := Confirming(1, HeaderNamed("A"), [ROW_OTHER], 1, AskAccount)
  const CHECKED := System(BEGUN.db, map[1 := PASSED], {}, [])
  const BEATEN := System(WithStatus(BEGUN.db, 1, Confirmed), map[1 := PASSED], {1}, [Change(1, ToConfirmed, Draft)])

  lemma FirstPasses()
    ensures Trace(BEGUN, ConfirmUpToSwap(1, 1, 4)) == CHECKED
  {
    BegunIsSoundLine();
    ConfirmReachesSwap(BEGUN, 1, 1, 4);
    assert Checked(BEGUN.db, 1, 4) == PASSED;
  }

  lemma SecondWins()
    ensures Trace(CHECKED, ConfirmSteps(2, 1, 4)) == BEATEN
  {
    BegunIsSoundLine();
    ConfirmWins(CHECKED, 2, 1, 4);
  }

  lemma BeatenRun()
    ensures Trace(BEGUN, ConfirmUpToSwap(1, 1, 4) + ConfirmSteps(2, 1, 4)) == BEATEN
  {
    FirstPasses();
    SecondWins();
    TraceAppend(BEGUN, ConfirmUpToSwap(1, 1, 4), ConfirmSteps(2, 1, 4));
  }

  lemma BeatenLoses()
    ensures Next(BEATEN.db, PASSED, MASTERS, []) == Fail(Internal)
  {
  }

  /** Two confirms of one budget: both pass every check, the second wins, and the first answers the internal error,
      not the conflict. */
  lemma LostConfirmIsInternal() returns (s: System, actions: seq<Action>)
    ensures Quiet(s)
    ensures var after := Trace(s, actions);
            && 1 in after.tasks
            && after.tasks[1].Confirming?
            && 1 in after.ever
            && Next(after.db, after.tasks[1], MASTERS, []) == Fail(Internal)
  {
    s, actions := BEGUN, ConfirmUpToSwap(1, 1, 4) + ConfirmSteps(2, 1, 4);
    BegunIsQuiet();
    BeatenRun();
    BeatenLoses();
  }

  // ── verbs that land late ───────────────────────────────────────────────────

  /** A break of the freeze between two moments of a run shows that some compare-and-set did not win alone. */
  lemma NotAlone(s: System, before: seq<Action>, late: seq<Action>, b: BudgetId)
    requires Quiet(s)
    requires var mid := Trace(s, before).db;
             b in mid.budgets && mid.budgets[b].status != Draft && !Frozen(mid, Trace(Trace(s, before), late).db, b)
    ensures !WinsAloneTrace(s, before + late)
  {
    if WinsAloneTrace(s, before + late) {
      OverlapsFreeze(s, before, late);
      TraceAppend(s, before, late);
    }
  }

  const DELETES := System(BEGUN.db, map[1 := Deleting(1, 4)], {}, [])
  const CONFIRMED_MEANWHILE := System(WithStatus(BEGUN.db, 1, Confirmed), map[1 := Deleting(1, 4)], {1}, [Change(1, ToConfirmed, Draft)])

  lemma ConfirmOvertakesDelete()
    ensures Trace(BEGUN, [Start(1, DeleteLine(1, 4))] + ConfirmSteps(2, 1, 4)) == CONFIRMED_MEANWHILE
  {
    BegunIsSoundLine();
    OneStep(BEGUN, Start(1, DeleteLine(1, 4)));
    assert Perform(BEGUN, Start(1, DeleteLine(1, 4))).tasks == DELETES.tasks;
    ConfirmWins(DELETES, 2, 1, 4);
    TraceAppend(BEGUN, [Start(1, DeleteLine(1, 4))], ConfirmSteps(2, 1, 4));
  }

  lemma DeleteLands()
    ensures var mid, after := CONFIRMED_MEANWHILE.db, Trace(CONFIRMED_MEANWHILE, [Go(1)]);
            !Frozen(mid, after.db, 1) && after.ever == {1} && !Armed(after.db, 1)
  {
    OneStep(CONFIRMED_MEANWHILE, Go(1));
    var after := Perform(CONFIRMED_MEANWHILE, Go(1)).db;
    assert after.lines[4].deleted && LiveLinesOf(after, 1) == {};
  }

  /** A delete_line in progress when its budget's confirm wins: the confirmed budget loses its only line, against the
      freeze and the rule that a confirmed budget has lines. */
  lemma LateDeleteBreaksFreeze() returns (s: System, before: seq<Action>, late: seq<Action>)
    ensures Quiet(s) && !WinsAloneTrace(s, before + late) && !SettledTrace(s, before + late)
    ensures var mid, after := Trace(s, before), Trace(s, before + late);
            && 1 in mid.ever
            && 1 in mid.db.budgets
            && !Frozen(mid.db, after.db, 1)
            && !Armed(after.db, 1)
  {
    s, before, late := BEGUN, [Start(1, DeleteLine(1, 4))] + ConfirmSteps(2, 1, 4), [Go(1)];
    BegunIsQuiet();
    ConfirmOvertakesDelete();
    DeleteLands();
    TraceAppend(s, before, late);
    NotAlone(s, before, late, 1);
    if SettledTrace(s, before + late) {
      SettledTracesKeepArmed(s, before + late);
    }
  }

  /** Budget 1 is confirmed, nothing is in progress. */
  const RUNNING := System(WithStatus(BEGUN.db, 1, Confirmed), map[], {1}, [])
  const RELAX := BudgetPatch(None, None, None, None, Some(Warn))
  const CLOSED_MEANWHILE := System(WithStatus(RUNNING.db, 1, Closed), map[1 := Patching(1, RUNNING.db.budgets[1], RELAX)], {1},
    [Change(1, ToClosed, Confirmed)])

  const RELAXES := Patching(1, RUNNING.db.budgets[1], RELAX)
  const CLOSES := Transitioning(1, ToClosed, Confirmed)

  lemma PatchBegins()
    ensures Trace(RUNNING, [Start(1, Patch(1, RELAX))]) == Holding(RUNNING, 1, RELAXES)
  {
    OneStep(RUNNING, Start(1, Patch(1, RELAX)));
  }

  lemma CloseBegins()
    ensures Trace(Holding(RUNNING, 1, RELAXES), [Start(2, Close(1))]) == Holding(Holding(RUNNING, 1, RELAXES), 2, CLOSES)
  {
    OneStep(Holding(RUNNING, 1, RELAXES), Start(2, Close(1)));
  }

  lemma CloseWins()
    ensures Trace(Holding(Holding(RUNNING, 1, RELAXES), 2, CLOSES), [Go(2)]) == CLOSED_MEANWHILE
  {
    var s := Holding(Holding(RUNNING, 1, RELAXES), 2, CLOSES);
    OneStep(s, Go(2));
    assert s.tasks - {2} == CLOSED_MEANWHILE.tasks;
  }

  lemma CloseOvertakesPatch()
    ensures Trace(RUNNING, [Start(1, Patch(1, RELAX))] + ([Start(2, Close(1))] + [Go(2)])) == CLOSED_MEANWHILE
  {
    PatchBegins();
    CloseBegins();
    CloseWins();
    TraceAppend(Holding(RUNNING, 1, RELAXES), [Start(2, Close(1))], [Go(2)]);
    TraceAppend(RUNNING, [Start(1, Patch(1, RELAX))], [Start(2, Close(1))] + [Go(2)]);
  }

  lemma RunningIsQuiet()
    ensures Quiet(RUNNING)
  {
  }

  lemma PatchLands()
    ensures var mid, after := CLOSED_MEANWHILE.db, Trace(CLOSED_MEANWHILE, [Go(1)]).db;
            && mid.budgets[1].status == Closed
            && 1 in after.budgets && after.budgets[1] == mid.budgets[1].(enforcement := Warn) != mid.budgets[1]
  {
    OneStep(CLOSED_MEANWHILE, Go(1));
  }

  /** An enforcement patch in progress when its budget closes changes a closed budget. */
  lemma LatePatchBreaksFreeze() returns (s: System, before: seq<Action>, late: seq<Action>)
    ensures Quiet(s) && !WinsAloneTrace(s, before + late)
    ensures var mid, after := Trace(s, before).db, Trace(s, before + late).db;
            && 1 in mid.budgets && mid.budgets[1].status == Closed
            && 1 in after.budgets && after.budgets[1] == mid.budgets[1].(enforcement := Warn) != mid.budgets[1]
  {
    s, before, late := RUNNING, [Start(1, Patch(1, RELAX))] + ([Start(2, Close(1))] + [Go(2)]), [Go(1)];
    RunningIsQuiet();
    CloseOvertakesPatch();
    PatchLands();
    TraceAppend(s, before, late);
    NotAlone(s, before, late, 1);
  }

  const SHORTEN := BudgetPatch(None, None, None, Some(5), None)
  const SHORT := HeaderNamed("A").(dateTo := 5)
  const SHORTENED := System(Db(map[1 := SHORT, 2 := HeaderNamed("B")], map[4 := ROW_OTHER]), map[1 := PASSED], {}, [])

  const SHORTENS := Patching(1, HeaderNamed("A"), SHORTEN)

  lemma ShortenBegins()
    ensures Trace(CHECKED, [Start(2, Patch(1, SHORTEN))]) == Holding(CHECKED, 2, SHORTENS)
  {
    OneStep(CHECKED, Start(2, Patch(1, SHORTEN)));
  }

  lemma ShortenLands()
    ensures Trace(Holding(CHECKED, 2, SHORTENS), [Go(2)]) == SHORTENED
  {
    OneStep(Holding(CHECKED, 2, SHORTENS), Go(2));
    assert 'A' in SHORT.code && 'A' in SHORT.name;
    assert BEGUN.db.budgets[1 := SHORT] == SHORTENED.db.budgets;
    assert Holding(CHECKED, 2, SHORTENS).tasks - {2} == SHORTENED.tasks;
  }

  function ShortenSteps(): seq<Action> {
    [Start(2, Patch(1, SHORTEN))] + [Go(2)]
  }

  lemma ShortenRun()
    ensures Trace(BEGUN, ConfirmUpToSwap(1, 1, 4) + (ShortenSteps() + [Go(1)])) == Trace(SHORTENED, [Go(1)])
  {
    FirstPasses();
    ShortenBegins();
    ShortenLands();
    TraceAppend(CHECKED, [Start(2, Patch(1, SHORTEN))], [Go(2)]);
    TraceAppend(CHECKED, ShortenSteps(), [Go(1)]);
    TraceAppend(BEGUN, ConfirmUpToSwap(1, 1, 4), ShortenSteps() + [Go(1)]);
  }

  lemma NotSteady(s: System, actions: seq<Action>)
    requires Quiet(s) && s.ever == {}
    requires forall a | a in actions :: PeriodsFixed(MASTERS.periods, a)
    requires exists b | b in Trace(s, actions).ever :: !PeriodsFit(MASTERS.periods, Trace(s, actions).db, b)
    ensures !SteadyTrace(s, actions)
  {
    if SteadyTrace(s, actions) {
      SteadyTracesKeepFitting(MASTERS.periods, s, actions);
    }
  }

  /** A header patch that lands between a confirm's checks and its compare-and-set leaves a confirmed budget with a
      line whose period is outside its dates. */
  lemma LatePatchBreaksPeriods() returns (s: System, actions: seq<Action>)
    ensures Quiet(s) && s.ever == {} && !SteadyTrace(s, actions)
    ensures 1 in Trace(s, actions).ever && !PeriodsFit(MASTERS.periods, Trace(s, actions).db, 1)
  {
    s, actions := BEGUN, ConfirmUpToSwap(1, 1, 4) + (ShortenSteps() + [Go(1)]);
    BegunIsQuiet();
    ShortenRun();
    ShortenedConfirms();
    NotSteady(s, actions);
  }

  lemma ShortenedConfirms()
    ensures var after := Trace(SHORTENED, [Go(1)]); 1 in after.ever && !PeriodsFit(MASTERS.periods, after.db, 1)
  {
    var quiet := SHORTENED.(tasks := map[]);
    assert Holding(quiet, 1, PASSED) == SHORTENED;
    ConfirmSwaps(quiet, 1, 1, HeaderNamed("A"), [ROW_OTHER]);
    assert 4 in LiveLinesOf(Trace(SHORTENED, [Go(1)]).db, 1);
    assert !PeriodFits(MASTERS.periods, SHORT.(status := Confirmed), ROW_OTHER);
  }
}
