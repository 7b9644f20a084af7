/** The lifecycle verbs under any interleaving at all, verbs on one budget included:
    their compare-and-sets are linearizable. */
module Lifecycle {
  import opened BudgetTypes
  import opened BudgetWorkflow
  import opened Races

  /** A compare-and-set's effect on a status: a transition, or a refusal. Confirm's guards are not asked here. */
  function AtomicStatus(was: Status, v: LifecycleVerb): Status {
    if was in AllowedFrom(v) then Target(v) else was
  }

  function VerbOf(b: BudgetId, v: LifecycleVerb): (verb: Verb)
    ensures Drawn(verb) && TargetBudget(verb) == b
  {
    match v
    case ToConfirmed => Confirm(b)
    case ToClosed => Close(b)
    case ToCancelled => Cancel(b)
  }

  /** Close and cancel change a status just so; confirm does when its guards hold, and never from another status. */
  lemma AtomicStatusIsTheVerbs(db: Db, gl: Gl, b: BudgetId, v: LifecycleVerb)
    requires LiveBudget(db, b)
    ensures Succeeds(db, gl, VerbOf(b, v)) <==> db.budgets[b].status in AllowedFrom(v) && (v == ToConfirmed ==> Confirmable(db, gl, b))
    ensures v != ToConfirmed || Confirmable(db, gl, b) || db.budgets[b].status != Draft ==>
              Apply(db, gl, VerbOf(b, v)) == WithStatus(db, b, AtomicStatus(db.budgets[b].status, v))
    ensures v == ToConfirmed && !Confirmable(db, gl, b) ==> Apply(db, gl, VerbOf(b, v)) == db
  {
    assert db.budgets[b := db.budgets[b]] == db.budgets;
  }

  /** Replay the winners on one budget, in commit order, each as its compare-and-set. */
  function StatusAfter(start: Status, log: seq<Change>, b: BudgetId): Status {
    if log == [] then start else
      var last := |log| - 1;
      var before := StatusAfter(start, log[..last], b);
      if log[last].budget == b then AtomicStatus(before, log[last].verb) else before
  }

  /** A budget's first status: as stored, or draft when it is created on the way. */
  function Initial(s0: System, b: BudgetId): Status {
    if b in s0.db.budgets then s0.db.budgets[b].status else Draft
  }

  /** The winner at `i` met, in the replay, exactly the status it had observed, and was allowed from there. */
  predicate WinsAt(s0: System, log: seq<Change>, i: nat)
    requires i < |log|
  {
    && log[i].seen == StatusAfter(Initial(s0, log[i].budget), log[..i], log[i].budget)
    && log[i].seen in AllowedFrom(log[i].verb)
  }

  ghost predicate Linear(s0: System, s: System) {
    && (forall b | b in s0.db.budgets :: b in s.db.budgets)
    && (forall b | b in s.db.budgets :: s.db.budgets[b].status == StatusAfter(Initial(s0, b), s.log, b))
    && (forall i | 0 <= i < |s.log| :: WinsAt(s0, s.log, i) && s.log[i].budget in s.db.budgets)
    && (forall t | t in s.tasks && s.tasks[t].Transitioning? :: s.tasks[t].seen in AllowedFrom(s.tasks[t].verb))
  }

  lemma {:induction false} NoChangeNoEffect(start: Status, log: seq<Change>, b: BudgetId)
    requires forall c | c in log :: c.budget != b
    ensures StatusAfter(start, log, b) == start
  {
    if log != [] {
      var last := |log| - 1;
      assert log[last] in log;
      NoChangeNoEffect(start, log[..last], b);
    }
  }

  lemma CommitKeepsStatuses(db: Db, k: Task, gl: Gl, order: seq<LineId>)
    requires Next(db, k, gl, order).Commit?
    ensures var after := Next(db, k, gl, order).db;
            && (forall b | b in db.budgets ::
                  && b in after.budgets
                  && after.budgets[b].status == db.budgets[b].status
                  && after.budgets[b].deleted == db.budgets[b].deleted)
            && (forall b | b in after.budgets && b !in db.budgets :: after.budgets[b].status == Draft)
  {
    CommitWrites(db, k, gl, order);
  }

  /** What a win is: the row still had the status that was read, and only that row's status moves. */
  lemma WinIsTransition(db: Db, k: Task, gl: Gl, order: seq<LineId>)
    requires Next(db, k, gl, order).Win?
    requires k.Transitioning? ==> k.seen in AllowedFrom(k.verb)
    ensures var o := Next(db, k, gl, order);
            && LiveBudget(db, o.change.budget)
            && o.change.seen == db.budgets[o.change.budget].status
            && o.change.seen in AllowedFrom(o.change.verb)
            && o.after == WithStatus(db, o.change.budget, Target(o.change.verb))
            && o.after == TransitionEffect(db, o.change.budget, o.change.verb).db
  {
    WinSwaps(db, k, gl, order);
  }

  /** Appending a winner that observed the current status keeps the log linear. */
  lemma LogExtends(s0: System, s: System, after: System, c: Change)
    requires Linear(s0, s)
    requires c.budget in s.db.budgets && c.seen == s.db.budgets[c.budget].status && c.seen in AllowedFrom(c.verb)
    requires after.log == s.log + [c] && after.db == WithStatus(s.db, c.budget, Target(c.verb))
    requires forall t | t in after.tasks :: t in s.tasks && after.tasks[t] == s.tasks[t]
    ensures Linear(s0, after)
  {
    assert after.log[..|s.log|] == s.log;
    forall b | b in after.db.budgets ensures after.db.budgets[b].status == StatusAfter(Initial(s0, b), after.log, b) {
      assert StatusAfter(Initial(s0, b), after.log, b)
          == if c.budget == b then AtomicStatus(StatusAfter(Initial(s0, b), s.log, b), c.verb) else StatusAfter(Initial(s0, b), s.log, b);
    }
    forall i | 0 <= i < |after.log| ensures WinsAt(s0, after.log, i) && after.log[i].budget in after.db.budgets {
      if i < |s.log| {
        assert after.log[..i] == s.log[..i] && WinsAt(s0, s.log, i);
      }
    }
  }

  lemma WinExtendsLog(s0: System, s: System, t: TaskId, gl: Gl, order: seq<LineId>)
    requires Linear(s0, s)
    requires t in s.tasks && Next(s.db, s.tasks[t], gl, order).Win?
    ensures Linear(s0, Perform(s, Advance(t, gl, order)))
  {
    WinIsTransition(s.db, s.tasks[t], gl, order);
    LogExtends(s0, s, Perform(s, Advance(t, gl, order)), Next(s.db, s.tasks[t], gl, order).change);
  }

  lemma CommitKeepsLinear(s0: System, s: System, t: TaskId, gl: Gl, order: seq<LineId>)
    requires Linear(s0, s)
    requires t in s.tasks && Next(s.db, s.tasks[t], gl, order).Commit?
    ensures Linear(s0, Perform(s, Advance(t, gl, order)))
  {
    var after := Perform(s, Advance(t, gl, order));
    CommitKeepsStatuses(s.db, s.tasks[t], gl, order);
    forall b | b in after.db.budgets ensures after.db.budgets[b].status == StatusAfter(Initial(s0, b), s.log, b) {
      if b !in s.db.budgets {
        NoChangeNoEffect(Draft, s.log, b);
      }
    }
  }

  /** Lifecycle tasks of close and cancel come from a first read only, which allows the status it saw. */
  lemma BegunIsAllowed(db: Db, v: Verb)
    ensures var begun := Begin(db, v);
            begun.Ok? && begun.value.Transitioning? ==> begun.value.seen in AllowedFrom(begun.value.verb)
  {
  }

  lemma ContinueNeverTransitions(db: Db, k: Task, gl: Gl, order: seq<LineId>)
    requires Next(db, k, gl, order).Continue?
    ensures !Next(db, k, gl, order).task.Transitioning?
  {
  }

  lemma MovedTasksKeepLinear(s0: System, s: System, tasks: map<TaskId, Task>)
    requires Linear(s0, s)
    requires forall t | t in tasks && tasks[t].Transitioning? :: tasks[t].seen in AllowedFrom(tasks[t].verb)
    ensures Linear(s0, s.(tasks := tasks))
  {
  }

  lemma StepKeepsLinear(s0: System, s: System, a: Action)
    requires Linear(s0, s)
    ensures Linear(s0, Perform(s, a))
  {
    if a.Advance? && a.task in s.tasks {
      var o := Next(s.db, s.tasks[a.task], a.gl, a.order);
      if o.Commit? {
        CommitKeepsLinear(s0, s, a.task, a.gl, a.order);
      } else if o.Win? {
        WinExtendsLog(s0, s, a.task, a.gl, a.order);
      } else {
        if o.Continue? {
          ContinueNeverTransitions(s.db, s.tasks[a.task], a.gl, a.order);
        }
        MovedTasksKeepLinear(s0, s, Perform(s, a).tasks);
      }
    } else {
      if a.Start? {
        BegunIsAllowed(s.db, a.verb);
      }
      MovedTasksKeepLinear(s0, s, Perform(s, a).tasks);
    }
  }

  lemma {:induction false} TraceIsLinear(s0: System, s: System, actions: seq<Action>)
    requires Linear(s0, s)
    ensures Linear(s0, Trace(s, actions))
    decreases |actions|
  {
    if actions != [] {
      StepKeepsLinear(s0, s, actions[0]);
      TraceIsLinear(s0, Perform(s, actions[0]), actions[1..]);
    }
  }

  function Rank(s: Status): nat {
    match s
    case Draft => 0
    case Confirmed => 1
    case Closed => 2
    case Cancelled => 2
  }

  lemma {:induction false} RankNeverFalls(start: Status, log: seq<Change>, b: BudgetId, i: nat)
    requires i <= |log|
    ensures Rank(StatusAfter(start, log[..i], b)) <= Rank(StatusAfter(start, log, b))
    decreases |log|
  {
    if i < |log| {
      var last := |log| - 1;
      assert log[..last][..i] == log[..i];
      RankNeverFalls(start, log[..last], b, i);
    } else {
      assert log[..i] == log;
    }
  }

  /** A later winner on the same budget observed a status of strictly higher rank. */
  lemma LaterWinnerRanksHigher(s0: System, log: seq<Change>, i: nat, j: nat)
    requires i < j < |log| && log[i].budget == log[j].budget
    requires WinsAt(s0, log, i) && WinsAt(s0, log, j)
    ensures Rank(log[i].seen) < Rank(log[j].seen)
  {
    var b, start := log[i].budget, Initial(s0, log[i].budget);
    assert log[..i + 1][..i] == log[..i];
    assert StatusAfter(start, log[..i + 1], b) == Target(log[i].verb);
    assert log[..j][..i + 1] == log[..i + 1];
    RankNeverFalls(start, log[..j], b, i + 1);
  }

  /** Winners on one budget observed strictly rising, hence different, statuses. */
  ghost predicate RisingPerBudget(log: seq<Change>) {
    forall i, j | 0 <= i < j < |log| && log[i].budget == log[j].budget :: Rank(log[i].seen) < Rank(log[j].seen)
  }

  ghost predicate AtMostTwicePerBudget(log: seq<Change>) {
    forall i, j, k | 0 <= i < j < k < |log| :: !(log[i].budget == log[j].budget == log[k].budget)
  }

  lemma WinnersAreFew(s0: System, log: seq<Change>)
    requires forall i | 0 <= i < |log| :: WinsAt(s0, log, i)
    ensures RisingPerBudget(log) && AtMostTwicePerBudget(log)
  {
    forall i, j | 0 <= i < j < |log| && log[i].budget == log[j].budget ensures Rank(log[i].seen) < Rank(log[j].seen) {
      LaterWinnerRanksHigher(s0, log, i, j);
    }
    forall i | 0 <= i < |log| ensures Rank(log[i].seen) <= 1 {
      assert WinsAt(s0, log, i);
    }
  }

  /** Linearizability of the statuses, in every interleaving of any number of verbs of every kind, from any state with
      nothing in progress: replaying the winners in commit order gives every budget's status, each winner allowed from
      just the status it had observed; at most one verb per observed status wins; and a budget changes status at most
      twice, through strictly rising ranks. Confirm is replayed as its compare-and-set alone: the line verbs that may
      run here can change what its guards saw, so the whole verb need not succeed at that place. */
  lemma LifecycleLinearizable(s0: System, actions: seq<Action>)
    requires s0.tasks == map[] && s0.log == []
    ensures var s := Trace(s0, actions);
            && (forall b | b in s.db.budgets :: s.db.budgets[b].status == StatusAfter(Initial(s0, b), s.log, b))
            && (forall i | 0 <= i < |s.log| :: WinsAt(s0, s.log, i))
            && RisingPerBudget(s.log)
            && AtMostTwicePerBudget(s.log)
  {
    TraceIsLinear(s0, s0, actions);
    WinnersAreFew(s0, Trace(s0, actions).log);
  }

  /** A lifecycle step that does not win writes nothing. One that has come to its compare-and-set loses if and only
      if the row no longer has the status that was read; a lost close or cancel answers the conflict with that status,
      a lost confirm the internal error. */
  lemma LosersWriteNothing(s: System, a: Action)
    requires a.Advance? && a.task in s.tasks
    requires var k := s.tasks[a.task]; k.ReadingLines? || k.Confirming? || k.Transitioning?
    ensures var k, o, after := s.tasks[a.task], Next(s.db, s.tasks[a.task], a.gl, a.order), Perform(s, a);
            && (after.log == s.log ==> after.db == s.db && after.ever == s.ever)
            && (k.Transitioning? ==>
                  && (after.log == s.log <==> !LiveBudget(s.db, k.budget) || s.db.budgets[k.budget].status != k.seen)
                  && (after.log == s.log ==> o == Fail(InvalidTransition(k.seen)) && a.task !in after.tasks))
            && (k.Confirming? && k.next >= |k.rows| ==>
                  && (after.log == s.log <==> !InDraft(s.db, k.budget))
                  && (after.log == s.log ==> o == Fail(Internal) && a.task !in after.tasks))
  {
  }

  /** The status a lifecycle verb in progress has read. */
  function SeenBy(k: Task): Option<Status> {
    match k
    case ReadingLines(_, _) => Some(Draft)
    case Confirming(_, _, _, _, _) => Some(Draft)
    case Transitioning(_, _, seen) => Some(seen)
    case _ => None
  }

  /** Some verb has already won from this status of this budget. */
  ghost predicate WonFrom(log: seq<Change>, b: BudgetId, seen: Status) {
    exists i | 0 <= i < |log| :: log[i].budget == b && log[i].seen == seen
  }

  ghost predicate StillOrWon(s: System, k: Task) {
    SeenBy(k).Some? ==>
      && LiveBudget(s.db, BudgetOf(k))
      && (s.db.budgets[BudgetOf(k)].status == SeenBy(k).value || WonFrom(s.log, BudgetOf(k), SeenBy(k).value))
  }

  lemma StepKeepsStillOrWon(s: System, a: Action)
    requires forall t | t in s.tasks :: StillOrWon(s, s.tasks[t])
    ensures forall t | t in Perform(s, a).tasks :: StillOrWon(Perform(s, a), Perform(s, a).tasks[t])
  {
    if a.Advance? && a.task in s.tasks {
      var o, after := Next(s.db, s.tasks[a.task], a.gl, a.order), Perform(s, a);
      if o.Commit? {
        CommitKeepsStatuses(s.db, s.tasks[a.task], a.gl, a.order);
      } else if o.Win? {
        forall t | t in after.tasks && SeenBy(after.tasks[t]).Some? ensures StillOrWon(after, after.tasks[t]) {
          var b, seen := BudgetOf(after.tasks[t]), SeenBy(after.tasks[t]).value;
          if WonFrom(s.log, b, seen) {
            var i :| 0 <= i < |s.log| && s.log[i].budget == b && s.log[i].seen == seen;
            assert after.log[i] == s.log[i];
          } else if o.change.budget == b {
            assert after.log[|s.log|] == o.change;
          }
        }
      }
    }
  }

  lemma {:induction false} TraceKeepsStillOrWon(s: System, actions: seq<Action>)
    requires forall t | t in s.tasks :: StillOrWon(s, s.tasks[t])
    ensures forall t | t in Trace(s, actions).tasks :: StillOrWon(Trace(s, actions), Trace(s, actions).tasks[t])
    decreases |actions|
  {
    if actions != [] {
      StepKeepsStillOrWon(s, actions[0]);
      TraceKeepsStillOrWon(Perform(s, actions[0]), actions[1..]);
    }
  }

  /** In every interleaving, a compare-and-set is lost only to another verb that already won from the very status the
      loser had read. */
  lemma LosersLostToAWinner(s0: System, actions: seq<Action>, t: TaskId, gl: Gl, order: seq<LineId>)
    requires s0.tasks == map[]
    requires t in Trace(s0, actions).tasks
    requires var k := Trace(s0, actions).tasks[t]; k.Transitioning? || (k.Confirming? && k.next >= |k.rows|)
    ensures var s, k := Trace(s0, actions), Trace(s0, actions).tasks[t];
            Next(s.db, k, gl, order).Fail? ==> WonFrom(s.log, k.budget, SeenBy(k).value)
  {
    TraceKeepsStillOrWon(s0, actions);
    assert StillOrWon(Trace(s0, actions), Trace(s0, actions).tasks[t]);
  }

  // ── lifecycle verbs alone, as compare-and-sets ─────────────────────────────

  /** The winners' compare-and-sets replayed on the tables themselves. */
  function Replay(db: Db, log: seq<Change>): Db {
    if log == [] then db else
      var last := log[|log| - 1];
      TransitionEffect(Replay(db, log[..|log| - 1]), last.budget, last.verb).db
  }

  predicate OnlyLifecycle(actions: seq<Action>) {
    forall a | a in actions && a.Start? :: a.verb.Confirm? || a.verb.Close? || a.verb.Cancel?
  }

  predicate LifecycleTask(k: Task) {
    k.ReadingLines? || k.Confirming? || (k.Transitioning? && k.seen in AllowedFrom(k.verb))
  }

  ghost predicate LifecycleTasks(s: System) {
    forall t | t in s.tasks :: LifecycleTask(s.tasks[t])
  }

  lemma LifecycleBegins(db: Db, v: Verb)
    requires v.Confirm? || v.Close? || v.Cancel?
    ensures Begin(db, v).Ok? ==> LifecycleTask(Begin(db, v).value)
  {
  }

  lemma LifecycleContinues(db: Db, k: Task, gl: Gl, order: seq<LineId>)
    requires LifecycleTask(k)
    ensures var o := Next(db, k, gl, order);
            && !o.Commit?
            && (o.Continue? ==> LifecycleTask(o.task))
  {
  }

  lemma WinReplays(db0: Db, s: System, a: Action)
    requires s.db == Replay(db0, s.log)
    requires a.Advance? && a.task in s.tasks && LifecycleTask(s.tasks[a.task])
    requires Next(s.db, s.tasks[a.task], a.gl, a.order).Win?
    ensures Perform(s, a).db == Replay(db0, Perform(s, a).log)
  {
    WinIsTransition(s.db, s.tasks[a.task], a.gl, a.order);
    assert Perform(s, a).log[..|s.log|] == s.log;
  }

  lemma LifecycleStepReplays(db0: Db, s: System, a: Action)
    requires LifecycleTasks(s) && s.db == Replay(db0, s.log)
    requires a.Start? ==> a.verb.Confirm? || a.verb.Close? || a.verb.Cancel?
    ensures LifecycleTasks(Perform(s, a)) && Perform(s, a).db == Replay(db0, Perform(s, a).log)
  {
    if a.Advance? && a.task in s.tasks {
      LifecycleContinues(s.db, s.tasks[a.task], a.gl, a.order);
      if Next(s.db, s.tasks[a.task], a.gl, a.order).Win? {
        WinReplays(db0, s, a);
      }
    } else if a.Start? {
      LifecycleBegins(s.db, a.verb);
    }
  }

  /** When only lifecycle verbs run, however many and however interleaved, and the masters change at will, the tables
      are exactly those of the winners' compare-and-sets, one after another. */
  lemma {:induction false} LifecycleReplays(db0: Db, s: System, actions: seq<Action>)
    requires LifecycleTasks(s) && s.db == Replay(db0, s.log)
    requires OnlyLifecycle(actions)
    ensures Trace(s, actions).db == Replay(db0, Trace(s, actions).log)
    decreases |actions|
  {
    if actions != [] {
      assert actions[0] in actions;
      LifecycleStepReplays(db0, s, actions[0]);
      LifecycleReplays(db0, Perform(s, actions[0]), actions[1..]);
    }
  }
}
