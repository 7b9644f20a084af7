/** The lifecycle verbs as a whole, confirm's guards included: interleaved in any way with one
    another, they do what they would do one after another. */
module LifecycleVerbs {
  import opened BudgetTypes
  import opened BudgetReads
  import opened BudgetWorkflow
  import opened Races
  import opened Lifecycle

  /** The winners replayed as the atomic verbs they belong to. */
  function ReplayVerbs(db: Db, gl: Gl, log: seq<Change>): Db {
    if log == [] then db else
      var last := log[|log| - 1];
      Apply(ReplayVerbs(db, gl, log[..|log| - 1]), gl, VerbOf(last.budget, last.verb))
  }

  /** The winner at `i` succeeds where it stands in the replay. */
  predicate SucceedsAt(db: Db, gl: Gl, log: seq<Change>, i: nat)
    requires i < |log|
  {
    Succeeds(ReplayVerbs(db, gl, log[..i]), gl, VerbOf(log[i].budget, log[i].verb))
  }

  /** The guards of the line before `ask` have let it through. */
  predicate PassedSoFar(gl: Gl, header: Budget, line: NewBudgetLine, ask: Check) {
    && (ask != AskAccount ==> AccountRefusal(gl, line).None?)
    && (ask == AskPeriod || ask == AskKey ==> CostCenterRefusal(gl, line).None?)
    && (ask == AskKey ==> PeriodRefusal(gl, header, line).None?)
  }

  /** While its budget is a draft, what a confirm has read is still so, and every guard it has passed still holds. */
  ghost predicate GuardsStand(db: Db, gl: Gl, k: Task) {
    match k
    case ReadingLines(b, header) => InDraft(db, b) ==> header == db.budgets[b]
    case Confirming(b, header, rows, next, ask) =>
      && (InDraft(db, b) ==> header == db.budgets[b])
      && next <= |rows| && rows != []
      && RowsAreLive(db, b, rows)
      && (forall i | 0 <= i < next :: Refusal(db, gl, header, b, Candidate(rows[i])).None?)
      && (next < |rows| ==> PassedSoFar(gl, header, Candidate(rows[next]), ask))
    case Transitioning(_, v, seen) => v != ToConfirmed && seen in AllowedFrom(v)
    case _ => false
  }

  ghost predicate Replays(db0: Db, gl: Gl, s: System) {
    && s.db == ReplayVerbs(db0, gl, s.log)
    && (forall i | 0 <= i < |s.log| :: SucceedsAt(db0, gl, s.log, i))
    && (forall t | t in s.tasks :: GuardsStand(s.db, gl, s.tasks[t]))
  }

  lemma BegunGuardsStand(db: Db, gl: Gl, v: Verb)
    requires v.Confirm? || v.Close? || v.Cancel?
    requires Begin(db, v).Ok?
    ensures GuardsStand(db, gl, Begin(db, v).value)
  {
  }

  lemma ContinueGuardsStand(db: Db, gl: Gl, k: Task, order: seq<LineId>)
    requires GuardsStand(db, gl, k)
    ensures !Next(db, k, gl, order).Commit?
    ensures Next(db, k, gl, order).Continue? ==> GuardsStand(db, gl, Next(db, k, gl, order).task)
  {
    if k.ReadingLines? && IsLineOrder(db, k.budget, order) {
      RowsInAreLive(db, k.budget, order);
    }
  }

  /** A change of status alone leaves what the other verbs have read and passed. */
  lemma SwapLeavesGuards(db: Db, gl: Gl, b: BudgetId, v: LifecycleVerb, k: Task)
    requires b in db.budgets && GuardsStand(db, gl, k)
    ensures GuardsStand(WithStatus(db, b, Target(v)), gl, k)
  {
    var after := WithStatus(db, b, Target(v));
    if k.Confirming? {
      assert LiveLinesOf(after, k.budget) == LiveLinesOf(db, k.budget);
      forall i | 0 <= i < k.next ensures Refusal(after, gl, k.header, k.budget, Candidate(k.rows[i])).None? {
        assert Refusal(db, gl, k.header, k.budget, Candidate(k.rows[i])).None?;
      }
    }
  }

  /** Where a compare-and-set wins, the whole verb succeeds, and does the same. */
  lemma WinIsTheVerb(db: Db, gl: Gl, k: Task, after: Db, change: Change)
    requires GuardsStand(db, gl, k) && Swaps(db, k, after, change)
    ensures Succeeds(db, gl, VerbOf(change.budget, change.verb))
    ensures after == Apply(db, gl, VerbOf(change.budget, change.verb))
  {
    if k.Confirming? {
      PassedRowsConfirm(db, gl, k.budget, k.rows);
    }
  }

  lemma PassedRowsConfirm(db: Db, gl: Gl, b: BudgetId, rows: seq<BudgetLine>)
    requires InDraft(db, b) && rows != [] && RowsAreLive(db, b, rows)
    requires forall i | 0 <= i < |rows| :: Refusal(db, gl, db.budgets[b], b, Candidate(rows[i])).None?
    ensures Confirmable(db, gl, b)
  {
    assert rows[0] in rows;
    forall l | l in LiveLinesOf(db, b) ensures Refusal(db, gl, db.budgets[b], b, Candidate(db.lines[l])).None? {
      assert db.lines[l] in rows;
    }
  }

  lemma WinKeepsReplays(db0: Db, gl: Gl, s: System, t: TaskId, after: System, change: Change)
    requires Replays(db0, gl, s) && t in s.tasks && Swaps(s.db, s.tasks[t], after.db, change)
    requires after.tasks == s.tasks - {t} && after.log == s.log + [change]
    ensures Replays(db0, gl, after)
  {
    WinIsTheVerb(s.db, gl, s.tasks[t], after.db, change);
    assert after.log[..|s.log|] == s.log;
    forall i | 0 <= i < |after.log| ensures SucceedsAt(db0, gl, after.log, i) {
      if i < |s.log| {
        assert after.log[..i] == s.log[..i] && SucceedsAt(db0, gl, s.log, i);
      }
    }
    forall u | u in after.tasks ensures GuardsStand(after.db, gl, after.tasks[u]) {
      SwapLeavesGuards(s.db, gl, change.budget, change.verb, s.tasks[u]);
    }
  }

  lemma StepKeepsReplays(db0: Db, gl: Gl, s: System, a: Action)
    requires Replays(db0, gl, s)
    requires a.Start? ==> a.verb.Confirm? || a.verb.Close? || a.verb.Cancel?
    requires a.Advance? ==> a.gl == gl
    ensures Replays(db0, gl, Perform(s, a))
  {
    if a.Advance? && a.task in s.tasks {
      var k, o := s.tasks[a.task], Next(s.db, s.tasks[a.task], gl, a.order);
      ContinueGuardsStand(s.db, gl, k, a.order);
      if o.Win? {
        WinSwaps(s.db, k, gl, a.order);
        WinKeepsReplays(db0, gl, s, a.task, Perform(s, a), o.change);
      }
    } else if a.Start? && Begin(s.db, a.verb).Ok? {
      BegunGuardsStand(s.db, gl, a.verb);
    }
  }

  lemma {:induction false} TraceKeepsReplays(db0: Db, gl: Gl, s: System, actions: seq<Action>)
    requires Replays(db0, gl, s) && OnlyLifecycle(actions)
    requires forall a | a in actions && a.Advance? :: a.gl == gl
    ensures Replays(db0, gl, Trace(s, actions))
    decreases |actions|
  {
    if actions != [] {
      assert actions[0] in actions;
      StepKeepsReplays(db0, gl, s, actions[0]);
      TraceKeepsReplays(db0, gl, Perform(s, actions[0]), actions[1..]);
    }
  }

  /** Linearizability of the whole verbs: when only confirms, closes and cancels run, on masters that do not change in
      between, then however many there are and however their reads, checks and writes interleave, running the winners
      as atomic verbs in commit order gives exactly the tables, and each of them, confirm with all its guards, succeeds
      at its place. */
  lemma LifecycleVerbsLinearizable(s0: System, gl: Gl, actions: seq<Action>)
    requires s0.tasks == map[] && s0.log == []
    requires OnlyLifecycle(actions) && forall a | a in actions && a.Advance? :: a.gl == gl
    ensures var s := Trace(s0, actions);
            && s.db == ReplayVerbs(s0.db, gl, s.log)
            && forall i | 0 <= i < |s.log| :: SucceedsAt(s0.db, gl, s.log, i)
  {
    TraceKeepsReplays(s0.db, gl, s0, actions);
  }
}
