/** The joint between the workflow and posting control: exactly how each atomic verb
    changes what an evaluation reports, for every ledger, date and posting; and the
    spending ceiling over runs that mix verbs and postings. */
module ControlEffects {
  import opened BudgetTypes
  import opened BudgetReads
  import opened BudgetControl
  import opened BudgetWorkflow
  import opened ControlLaws
  import AtomicRuns
  import SpendingCeiling

  // ── positions ──────────────────────────────────────────────────────────────

  /** No verb moves the positions of a budget it does not target. */
  lemma OthersUntouched(db: Db, gl: Gl, v: Verb, pos: ControlPosition)
    requires Drawn(v) && pos.budget != TargetBudget(v)
    ensures pos in Positions(db) <==> pos in Positions(Apply(db, gl, v))
  {
    var after, b := Apply(db, gl, v), TargetBudget(v);
    AtomicRuns.VerbShape(db, gl, v);
    ShapeLeavesOthers(db, after, b, pos);
  }

  lemma ShapeLeavesOthers(db: Db, after: Db, b: BudgetId, pos: ControlPosition)
    requires AtomicRuns.Shape(db, after, b) && pos.budget != b
    ensures pos in Positions(db) <==> pos in Positions(after)
  {
  }

  /** Membership among the positions, told by the position's own line. */
  lemma PositionIsItsLine(db: Db, pos: ControlPosition)
    ensures pos in Positions(db) <==>
              && Joined(db, pos.line)
              && IsConfirmed(db, db.lines[pos.line].budget)
              && pos == PositionOf(db, pos.line)
  {
  }

  lemma UnconfirmedHasNone(db: Db, b: BudgetId, pos: ControlPosition)
    requires !IsConfirmed(db, b) && pos.budget == b
    ensures pos !in Positions(db)
  {
  }

  /** A verb on a budget that is not confirmed before nor after is invisible to control. */
  lemma UnconfirmedVerbInvisible(db: Db, gl: Gl, v: Verb)
    requires Drawn(v)
    requires !IsConfirmed(db, TargetBudget(v)) && !IsConfirmed(Apply(db, gl, v), TargetBudget(v))
    ensures Positions(Apply(db, gl, v)) == Positions(db)
  {
    var after, b := Apply(db, gl, v), TargetBudget(v);
    forall pos: ControlPosition ensures pos in Positions(db) <==> pos in Positions(after) {
      if pos.budget == b {
        UnconfirmedHasNone(db, b, pos);
        UnconfirmedHasNone(after, b, pos);
      } else {
        OthersUntouched(db, gl, v, pos);
      }
    }
  }

  /** A confirm adds exactly the budget's live lines, none of which control saw before. */
  lemma ConfirmAddsItsPositions(db: Db, gl: Gl, b: BudgetId)
    requires Succeeds(db, gl, Confirm(b))
    ensures PositionsOf(db, b) == {}
    ensures var after := Apply(db, gl, Confirm(b));
            && Positions(after) == Positions(db) + PositionsOf(after, b)
            && PositionsOf(after, b) == set l | l in LiveLinesOf(db, b) :: PositionOf(db, l)
  {
    var after := Apply(db, gl, Confirm(b));
    forall pos: ControlPosition | pos.budget == b ensures pos !in Positions(db) {
      UnconfirmedHasNone(db, b, pos);
    }
    forall pos: ControlPosition | pos.budget != b ensures pos in Positions(db) <==> pos in Positions(after) {
      OthersUntouched(db, gl, Confirm(b), pos);
    }
    var added := set l | l in LiveLinesOf(db, b) :: PositionOf(db, l);
    forall pos | pos in added ensures pos in PositionsOf(after, b) {
      PositionIsItsLine(after, pos);
    }
    forall pos | pos in PositionsOf(after, b) ensures pos in added {
      PositionIsItsLine(after, pos);
      assert pos.line in LiveLinesOf(db, b);
    }
  }

  /** A close or cancel of a confirmed budget removes exactly its positions. */
  lemma CloseAndCancelRemoveItsPositions(db: Db, gl: Gl, v: Verb)
    requires (v.Close? || v.Cancel?) && IsConfirmed(db, v.budget)
    ensures Succeeds(db, gl, v)
    ensures Positions(Apply(db, gl, v)) == Positions(db) - PositionsOf(db, v.budget)
  {
  }

  function Postured(pos: ControlPosition, b: BudgetId, posture: Enforcement): ControlPosition {
    if pos.budget == b then pos.(enforcement := posture) else pos
  }

  /** The only verb that succeeds on a confirmed budget and leaves it confirmed is the enforcement patch,
      and it changes only the enforcement of that budget's positions. */
  lemma ConfirmedVerbOnlyPostures(db: Db, gl: Gl, v: Verb)
    requires Drawn(v) && IsConfirmed(db, TargetBudget(v)) && !v.Close? && !v.Cancel?
    ensures Succeeds(db, gl, v) ==> v.Patch? && v.patch.enforcement.Some?
    ensures Succeeds(db, gl, v) ==>
              Positions(Apply(db, gl, v)) == set pos | pos in Positions(db) :: Postured(pos, v.budget, v.patch.enforcement.value)
  {
    if v.Create? && Succeeds(db, gl, v) {
      CreateAddsExactly(db, gl, v.id, v.lineIds, v.input);
    }
    if Succeeds(db, gl, v) {
      var after, posture := Apply(db, gl, v), v.patch.enforcement.value;
      forall pos | pos in Positions(db) ensures Postured(pos, v.budget, posture) in Positions(after) {
        PositionIsItsLine(db, pos);
        PositionIsItsLine(after, Postured(pos, v.budget, posture));
      }
      forall pos | pos in Positions(after)
        ensures exists was | was in Positions(db) :: pos == Postured(was, v.budget, posture)
      {
        PositionIsItsLine(after, pos);
        var was := PositionOf(db, pos.line);
        PositionIsItsLine(db, was);
        assert pos == Postured(was, v.budget, posture);
      }
    }
  }

  // ── breaches ───────────────────────────────────────────────────────────────

  /** What the verb's own budget adds to an evaluation. */
  function BreachesOfBudget(db: Db, gl: Gl, ledger: seq<LedgerRow>, period: PeriodId, date: Date, lines: seq<PostingLine>, b: BudgetId)
    : set<Breach>
  {
    set breach | breach in Breaches(db, gl, ledger, period, date, lines) && breach.budget == b
  }

  function PosturedBreach(breach: Breach, b: BudgetId, posture: Enforcement): Breach {
    if breach.budget == b then breach.(enforcement := posture) else breach
  }

  /** The exact effect of every verb, with any arguments, on every evaluation, on any ledger, date, posting and masters:
      a verb on an unconfirmed budget that leaves it unconfirmed has none; confirm adds that budget's breaches and
      nothing else; close and cancel remove them and nothing else; a verb on a confirmed budget that leaves it
      confirmed either fails or re-postures that budget's breaches. */
  lemma VerbEffectOnEvaluation(db: Db, gl: Gl, v: Verb,
                               masters: Gl, ledger: seq<LedgerRow>, period: PeriodId, date: Date, lines: seq<PostingLine>)
    requires Drawn(v)
    ensures var b, after := TargetBudget(v), Apply(db, gl, v);
            var was, now := Breaches(db, masters, ledger, period, date, lines), Breaches(after, masters, ledger, period, date, lines);
            var own := BreachesOfBudget(after, masters, ledger, period, date, lines, b);
            match (IsConfirmed(db, b), IsConfirmed(after, b))
            case (false, false) => now == was
            case (false, true) =>
              && v.Confirm?
              && now == was + own
              && BreachesOfBudget(db, masters, ledger, period, date, lines, b) == {}
            case (true, false) =>
              && (v.Close? || v.Cancel?)
              && now == was - BreachesOfBudget(db, masters, ledger, period, date, lines, b)
              && own == {}
            case (true, true) =>
              if Succeeds(db, gl, v) then
                && v.Patch?
                && v.patch.enforcement.Some?
                && now == set breach | breach in was :: PosturedBreach(breach, b, v.patch.enforcement.value)
              else now == was
  {
    var b, after := TargetBudget(v), Apply(db, gl, v);
    match (IsConfirmed(db, b), IsConfirmed(after, b)) {
      case (false, false) => UnconfirmedVerbInvisible(db, gl, v);
      case (false, true) =>
        OnlyConfirmConfirms(db, gl, v);
        ConfirmAddsItsPositions(db, gl, b);
        BreachesFollowPositions(db, after, b, masters, ledger, period, date, lines);
      case (true, false) =>
        OnlyCloseAndCancelDisarm(db, gl, v);
        CloseAndCancelRemoveItsPositions(db, gl, v);
        BreachesFollowPositions(after, db, b, masters, ledger, period, date, lines);
      case (true, true) =>
        ConfirmedVerbOnlyPostures(db, gl, v);
        if Succeeds(db, gl, v) {
          BreachesFollowPosture(db, after, b, v.patch.enforcement.value, masters, ledger, period, date, lines);
        } else {
          FailedVerbWritesNothing(db, gl, v);
        }
    }
  }

  lemma OnlyConfirmConfirms(db: Db, gl: Gl, v: Verb)
    requires Drawn(v)
    requires !IsConfirmed(db, TargetBudget(v)) && IsConfirmed(Apply(db, gl, v), TargetBudget(v))
    ensures v.Confirm? && Succeeds(db, gl, v)
  {
    if v.Create? && Succeeds(db, gl, v) {
      CreateAddsExactly(db, gl, v.id, v.lineIds, v.input);
    }
    if !Succeeds(db, gl, v) {
      FailedVerbWritesNothing(db, gl, v);
    }
  }

  lemma OnlyCloseAndCancelDisarm(db: Db, gl: Gl, v: Verb)
    requires Drawn(v)
    requires IsConfirmed(db, TargetBudget(v)) && !IsConfirmed(Apply(db, gl, v), TargetBudget(v))
    ensures v.Close? || v.Cancel?
  {
  }

  /** Two plans that differ by the positions of one budget differ by its breaches. */
  lemma BreachesFollowPositions(db: Db, more: Db, b: BudgetId,
                                masters: Gl, ledger: seq<LedgerRow>, period: PeriodId, date: Date, lines: seq<PostingLine>)
    requires Positions(more) == Positions(db) + PositionsOf(more, b)
    requires PositionsOf(db, b) == {}
    ensures var own := BreachesOfBudget(more, masters, ledger, period, date, lines, b);
            && Breaches(more, masters, ledger, period, date, lines) == Breaches(db, masters, ledger, period, date, lines) + own
            && Breaches(db, masters, ledger, period, date, lines) == Breaches(more, masters, ledger, period, date, lines) - own
            && BreachesOfBudget(db, masters, ledger, period, date, lines, b) == {}
  {
    forall breach | breach in Breaches(db, masters, ledger, period, date, lines)
      ensures breach.budget != b && breach in Breaches(more, masters, ledger, period, date, lines)
    {
      BreachNamesItsLine(db, masters, ledger, period, date, lines, breach);
      var pos := PositionOf(db, breach.line);
      assert pos.budget == b ==> pos in PositionsOf(db, b);
    }
    forall breach | breach in Breaches(more, masters, ledger, period, date, lines) && breach.budget != b
      ensures breach in Breaches(db, masters, ledger, period, date, lines)
    {
      BreachNamesItsLine(more, masters, ledger, period, date, lines, breach);
      assert PositionOf(more, breach.line) in Positions(db);
    }
  }

  lemma BreachesFollowPosture(db: Db, after: Db, b: BudgetId, posture: Enforcement,
                              masters: Gl, ledger: seq<LedgerRow>, period: PeriodId, date: Date, lines: seq<PostingLine>)
    requires Positions(after) == set pos | pos in Positions(db) :: Postured(pos, b, posture)
    ensures Breaches(after, masters, ledger, period, date, lines)
         == set breach | breach in Breaches(db, masters, ledger, period, date, lines) :: PosturedBreach(breach, b, posture)
  {
    var was, now := Breaches(db, masters, ledger, period, date, lines), Breaches(after, masters, ledger, period, date, lines);
    forall breach | breach in was ensures PosturedBreach(breach, b, posture) in now {
      BreachNamesItsLine(db, masters, ledger, period, date, lines, breach);
      var pos := Postured(PositionOf(db, breach.line), b, posture);
      assert pos in Positions(after) && Exceeds(masters, ledger, date, lines, pos);
      assert BreachOf(masters, ledger, date, lines, pos) == PosturedBreach(breach, b, posture);
    }
    forall breach | breach in now ensures exists prior | prior in was :: breach == PosturedBreach(prior, b, posture) {
      BreachNamesItsLine(after, masters, ledger, period, date, lines, breach);
      var pos :| pos in Positions(db) && PositionOf(after, breach.line) == Postured(pos, b, posture);
      assert Exceeds(masters, ledger, date, lines, pos);
      var before := BreachOf(masters, ledger, date, lines, pos);
      assert before in was && breach == PosturedBreach(before, b, posture);
    }
  }

  // ── verbs and postings in one run ──────────────────────────────────────────

  datatype Act =
    | Plan(event: AtomicRuns.Event)
    | Post(gl: Gl, period: Option<PeriodId>, date: Date, lines: seq<PostingLine>)

  predicate Performable(acts: seq<Act>) {
    forall a | a in acts :: if a.Plan? then Drawn(a.event.verb) else AllKnown(a.gl, a.lines)
  }

  function EventOf(db: Db, a: Act): SpendingCeiling.PostEvent
    requires a.Post?
  {
    SpendingCeiling.PostEvent(db, a.gl, a.period, a.date, a.lines)
  }

  /** The ledger after the acts: verbs change the plan, postings pass the gate of the plan they meet. */
  function LedgerAfter(db: Db, ledger: seq<LedgerRow>, acts: seq<Act>): seq<LedgerRow>
    requires Performable(acts)
    decreases |acts|
  {
    if acts == [] then ledger
    else match acts[0]
      case Plan(e) => LedgerAfter(Apply(db, e.gl, e.verb), ledger, acts[1..])
      case Post(_, _, _, _) => LedgerAfter(db, SpendingCeiling.Offer(ledger, EventOf(db, acts[0])), acts[1..])
  }

  /** The postings of the run, each with the plan it met. */
  function PostsOf(db: Db, acts: seq<Act>): (posts: seq<SpendingCeiling.PostEvent>)
    requires Performable(acts)
    ensures SpendingCeiling.Postable(posts)
    decreases |acts|
  {
    if acts == [] then []
    else match acts[0]
      case Plan(e) => PostsOf(Apply(db, e.gl, e.verb), acts[1..])
      case Post(_, _, _, _) => [EventOf(db, acts[0])] + PostsOf(db, acts[1..])
  }

  /** The verb neither ends the budget's control nor relaxes it to warn. */
  predicate LeavesBlocking(v: Verb, b: BudgetId) {
    TargetBudget(v) == b ==> !v.Close? && !v.Cancel? && (v.Patch? && v.patch.enforcement.Some? ==> v.patch.enforcement.value == Block)
  }

  lemma PositionPersists(db: Db, gl: Gl, v: Verb, pos: ControlPosition)
    requires Drawn(v) && pos in Positions(db) && pos.enforcement == Block && LeavesBlocking(v, pos.budget)
    ensures pos in Positions(Apply(db, gl, v))
  {
    if pos.budget != TargetBudget(v) {
      OthersUntouched(db, gl, v, pos);
    } else {
      PositionIsItsLine(db, pos);
      ConfirmedVerbOnlyPostures(db, gl, v);
      if Succeeds(db, gl, v) {
        assert Postured(pos, v.budget, v.patch.enforcement.value) == pos;
      } else {
        FailedVerbWritesNothing(db, gl, v);
      }
    }
  }

  /** The ledger sees the acts as their postings alone, each with the plan it met. */
  lemma {:induction false} LedgerSeesPosts(db: Db, ledger: seq<LedgerRow>, acts: seq<Act>)
    requires Performable(acts)
    ensures LedgerAfter(db, ledger, acts) == SpendingCeiling.Run(ledger, PostsOf(db, acts))
    decreases |acts|
  {
    if acts != [] {
      assert acts[0] in acts;
      match acts[0]
      case Plan(e) => LedgerSeesPosts(Apply(db, e.gl, e.verb), ledger, acts[1..]);
      case Post(_, _, _, _) =>
        LedgerSeesPosts(db, SpendingCeiling.Offer(ledger, EventOf(db, acts[0])), acts[1..]);
        assert PostsOf(db, acts)[1..] == PostsOf(db, acts[1..]);
    }
  }

  /** The ceiling over the whole system with no condition on the verbs and none on the order of dates: it is enough
      that each posting into the position's period meets a key that is safe under the plan of that moment. */
  lemma CeilingOverSafeActs(db: Db, ledger: seq<LedgerRow>, acts: seq<Act>, pos: ControlPosition)
    requires Performable(acts) && SpendingCeiling.SafeRun(ledger, PostsOf(db, acts), pos)
    ensures SpendingCeiling.Total(LedgerAfter(db, ledger, acts), pos)
         <= SpendingCeiling.Max(pos.planned, SpendingCeiling.Total(ledger, pos))
  {
    LedgerSeesPosts(db, ledger, acts);
    SpendingCeiling.SafeRunKeepsCeiling(ledger, PostsOf(db, acts), pos);
  }

  lemma {:induction false} PostsMeetThePosition(db: Db, acts: seq<Act>, pos: ControlPosition)
    requires Performable(acts)
    requires pos in Positions(db) && pos.enforcement == Block
    requires forall a | a in acts && a.Plan? :: LeavesBlocking(a.event.verb, pos.budget)
    ensures SpendingCeiling.Blocks(pos, PostsOf(db, acts))
    ensures forall e | e in PostsOf(db, acts) :: exists a | a in acts :: a.Post? && a.date == e.date
    decreases |acts|
  {
    if acts != [] {
      var rest := acts[1..];
      assert acts[0] in acts && forall a | a in rest :: a in acts;
      match acts[0]
      case Plan(e) =>
        PositionPersists(db, e.gl, e.verb, pos);
        PostsMeetThePosition(Apply(db, e.gl, e.verb), rest, pos);
      case Post(_, _, _, _) =>
        PostsMeetThePosition(db, rest, pos);
    }
  }

  predicate PostsInDateOrder(acts: seq<Act>, from: Date) {
    && (forall a | a in acts && a.Post? :: from <= a.date)
    && (forall i, j | 0 <= i < j < |acts| && acts[i].Post? && acts[j].Post? :: acts[i].date <= acts[j].date)
  }

  lemma {:induction false} PostsOfInOrder(db: Db, acts: seq<Act>, from: Date)
    requires Performable(acts) && PostsInDateOrder(acts, from)
    ensures SpendingCeiling.InDateOrder(PostsOf(db, acts))
    ensures forall e | e in PostsOf(db, acts) :: from <= e.date
    decreases |acts|
  {
    if acts != [] {
      var rest := acts[1..];
      assert forall a | a in rest :: a in acts;
      match acts[0]
      case Plan(e) => PostsOfInOrder(Apply(db, e.gl, e.verb), rest, from);
      case Post(_, _, date, _) =>
        assert acts[0] in acts;
        forall a | a in rest && a.Post? ensures date <= a.date {
          var i :| 0 <= i < |rest| && rest[i] == a;
          assert acts[i + 1] == a;
        }
        assert PostsInDateOrder(rest, date);
        PostsOfInOrder(db, rest, date);
    }
  }

  /** The ceiling over the whole system: from any moment a block position is in control, whatever verbs on whatever
      budgets follow (short of ending or relaxing its own budget's control) and whatever postings pass the gate in date
      order, the movement on its key never exceeds the larger of its plan and what was already there. */
  lemma CeilingOverVerbsAndPostings(db: Db, ledger: seq<LedgerRow>, acts: seq<Act>, pos: ControlPosition, start: Date)
    requires Performable(acts) && PostsInDateOrder(acts, start)
    requires pos in Positions(db) && pos.enforcement == Block
    requires forall a | a in acts && a.Plan? :: LeavesBlocking(a.event.verb, pos.budget)
    requires SpendingCeiling.NothingLater(ledger, start)
    ensures SpendingCeiling.Total(LedgerAfter(db, ledger, acts), pos)
         <= SpendingCeiling.Max(pos.planned, SpendingCeiling.Total(ledger, pos))
  {
    PostsMeetThePosition(db, acts, pos);
    LedgerSeesPosts(db, ledger, acts);
    PostsOfInOrder(db, acts, start);
    SpendingCeiling.BlockCeiling(ledger, PostsOf(db, acts), pos);
  }
}
