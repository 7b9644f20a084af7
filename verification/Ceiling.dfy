/** Evaluation used as a gate: the spending ceiling it gives over whole runs of
    postings, and exactly when one gated posting keeps it. */
module SpendingCeiling {
  import opened BudgetTypes
  import opened BudgetReads
  import opened BudgetControl
  import opened ControlLaws
  import opened Sums

  /** One posting offered to the ledger. The plan and the masters it meets may differ from
      event to event. `period` is the period its evaluation resolved and its rows are stamped with. */
  datatype PostEvent = PostEvent(db: Db, gl: Gl, period: Option<PeriodId>, date: Date, lines: seq<PostingLine>)

  predicate BlockBreach(ledger: seq<LedgerRow>, e: PostEvent) {
    e.period.Some? &&
    exists breach | breach in Breaches(e.db, e.gl, ledger, e.period.value, e.date, e.lines) :: breach.enforcement == Block
  }

  /** The gate: a block breach anywhere refuses the whole posting; a warn breach lets it through. */
  function Offer(ledger: seq<LedgerRow>, e: PostEvent): seq<LedgerRow>
    requires AllKnown(e.gl, e.lines)
  {
    if BlockBreach(ledger, e) then ledger else ledger + RowsOf(e.gl, e.period, e.date, e.lines)
  }

  predicate Postable(events: seq<PostEvent>) {
    forall e | e in events :: AllKnown(e.gl, e.lines)
  }

  function Run(ledger: seq<LedgerRow>, events: seq<PostEvent>): seq<LedgerRow>
    requires Postable(events)
    decreases |events|
  {
    if events == [] then ledger else Run(Offer(ledger, events[0]), events[1..])
  }

  predicate InDateOrder(events: seq<PostEvent>) {
    forall i, j | 0 <= i < j < |events| :: events[i].date <= events[j].date
  }

  predicate NothingLater(ledger: seq<LedgerRow>, date: Date) {
    forall r | r in ledger :: r.date <= date
  }

  /** The position controls every posting into its period, with the same plan throughout. */
  predicate Blocks(pos: ControlPosition, events: seq<PostEvent>) {
    && pos.enforcement == Block
    && forall e | e in events && e.period == Some(pos.period) :: pos in Positions(e.db)
  }

  function TotalTerm(key: ControlKey, period: PeriodId): LedgerRow -> real {
    (r: LedgerRow) =>
      if !r.deleted && r.account == key.account && r.costCenter == key.costCenter && r.period == Some(period)
      then Movement(r) else 0.0
  }

  /** All live movement on the position's key, whatever its date. */
  function Total(ledger: seq<LedgerRow>, pos: ControlPosition): real {
    Sum(ledger, TotalTerm(pos.Key(), pos.period))
  }

  function Max(a: real, b: real): real {
    if a < b then b else a
  }

  lemma TotalThrough(ledger: seq<LedgerRow>, pos: ControlPosition, through: Date)
    requires NothingLater(ledger, through)
    ensures Achieved(ledger, pos.Key(), pos.period, through) == Total(ledger, pos)
  {
    SumCongruent(ledger, KeyTerm(pos.Key(), pos.period, through), TotalTerm(pos.Key(), pos.period));
  }

  lemma {:induction false} RowsDated(gl: Gl, period: Option<PeriodId>, date: Date, lines: seq<PostingLine>)
    requires AllKnown(gl, lines)
    ensures forall r | r in RowsOf(gl, period, date, lines) :: r.date == date
  {
    if lines != [] {
      RowsDated(gl, period, date, lines[1..]);
    }
  }

  lemma PostedTotal(ledger: seq<LedgerRow>, gl: Gl, period: Option<PeriodId>, date: Date, lines: seq<PostingLine>, pos: ControlPosition)
    requires AllKnown(gl, lines)
    ensures Total(ledger + RowsOf(gl, period, date, lines), pos)
         == Total(ledger, pos) + (if period == Some(pos.period) then Pending(gl, lines, pos.Key()) else 0.0)
  {
    var rows := RowsOf(gl, period, date, lines);
    RowsDated(gl, period, date, lines);
    SumAppend(ledger, rows, TotalTerm(pos.Key(), pos.period));
    RowsMovement(gl, period, date, lines, pos.Key(), pos.period, date);
    TotalThrough(rows, pos, date);
  }

  // ── one posting through the gate ───────────────────────────────────────────

  /** The block positions that guard a position's key in its period: the position itself, when it blocks, and any
      other position on the same key. */
  function Rivals(db: Db, pos: ControlPosition): set<ControlPosition> {
    set q | q in Positions(db) && q.enforcement == Block && q.Key() == pos.Key() && q.period == pos.period
  }

  /** What a caller can check before posting at a date: some rival's plan is used up through the date already, or
      filling it would still leave the position's key, later rows included, within the position's plan. */
  ghost predicate Safe(db: Db, ledger: seq<LedgerRow>, date: Date, pos: ControlPosition) {
    var achieved := Achieved(ledger, pos.Key(), pos.period, date);
    exists q | q in Rivals(db, pos) ::
      achieved >= q.planned || Total(ledger, pos) - achieved + q.planned <= pos.planned
  }

  predicate KeepsCeiling(ledger: seq<LedgerRow>, e: PostEvent, pos: ControlPosition)
    requires AllKnown(e.gl, e.lines)
  {
    Total(Offer(ledger, e), pos) <= Max(pos.planned, Total(ledger, pos))
  }

  /** The gate refuses a posting that exceeds a rival. */
  lemma RivalBlocks(ledger: seq<LedgerRow>, e: PostEvent, pos: ControlPosition, q: ControlPosition)
    requires e.period == Some(pos.period) && q in Rivals(e.db, pos)
    requires Exceeds(e.gl, ledger, e.date, e.lines, q)
    ensures BlockBreach(ledger, e)
  {
    assert BreachOf(e.gl, ledger, e.date, e.lines, q) in Breaches(e.db, e.gl, ledger, pos.period, e.date, e.lines);
  }

  /** A posting into another period never moves the position's key; into its own, it is safe whenever the key is. */
  lemma SafeOfferKeepsCeiling(ledger: seq<LedgerRow>, e: PostEvent, pos: ControlPosition)
    requires AllKnown(e.gl, e.lines)
    requires e.period == Some(pos.period) ==> Safe(e.db, ledger, e.date, pos)
    ensures KeepsCeiling(ledger, e, pos)
  {
    PostedTotal(ledger, e.gl, e.period, e.date, e.lines, pos);
    if e.period == Some(pos.period) {
      var achieved := Achieved(ledger, pos.Key(), pos.period, e.date);
      var q :| q in Rivals(e.db, pos) && (achieved >= q.planned || Total(ledger, pos) - achieved + q.planned <= pos.planned);
      if Exceeds(e.gl, ledger, e.date, e.lines, q) {
        RivalBlocks(ledger, e, pos, q);
      }
    }
  }

  lemma {:induction false} TightestOf(rivals: set<ControlPosition>) returns (q: ControlPosition)
    requires rivals != {}
    ensures q in rivals && forall r | r in rivals :: q.planned <= r.planned
    decreases rivals
  {
    q :| q in rivals;
    if rivals != {q} {
      var other := TightestOf(rivals - {q});
      if other.planned < q.planned {
        q := other;
      }
    }
  }

  predicate OneSided(l: PostingLine) {
    (l.debit > 0.0 && l.credit == 0.0) || (l.debit == 0.0 && l.credit > 0.0)
  }

  function DebitOf(l: PostingLine): real {
    l.debit
  }

  function CreditOf(l: PostingLine): real {
    l.credit
  }

  /** What the double-entry rules let through to the gate: one positive side per line, debits equal to credits. */
  predicate Journal(lines: seq<PostingLine>) {
    (forall l | l in lines :: OneSided(l)) && Sum(lines, DebitOf) == Sum(lines, CreditOf)
  }

  lemma SumOfPair<T>(x: T, y: T, f: T -> real)
    ensures Sum([x, y], f) == f(x) + f(y)
  {
    assert [x, y][1..] == [y];
    assert Sum([y], f) == f(y) + Sum([y][1..], f);
  }

  /** A transfer: an amount onto a position's key, taken from the same account under another cost center. */
  function Transfer(gl: Gl, pos: ControlPosition, amount: real): seq<PostingLine>
    requires pos.account in gl.accounts
  {
    var elsewhere := if pos.costCenter.None? then Some(0) else None;
    if gl.accounts[pos.account].normal == DebitNormal
    then [PostingLine(pos.account, amount, 0.0, pos.costCenter), PostingLine(pos.account, 0.0, amount, elsewhere)]
    else [PostingLine(pos.account, 0.0, amount, pos.costCenter), PostingLine(pos.account, amount, 0.0, elsewhere)]
  }

  lemma TransferFills(gl: Gl, pos: ControlPosition, amount: real)
    requires pos.account in gl.accounts && amount > 0.0
    ensures var lines := Transfer(gl, pos, amount);
            && AllKnown(gl, lines)
            && Journal(lines)
            && Pending(gl, lines, pos.Key()) == amount
            && forall key | key != pos.Key() :: Pending(gl, lines, key) <= 0.0
  {
    var lines := Transfer(gl, pos, amount);
    SumOfPair(lines[0], lines[1], DebitOf);
    SumOfPair(lines[0], lines[1], CreditOf);
    forall key ensures Pending(gl, lines, key) == PendingTerm(gl, key)(lines[0]) + PendingTerm(gl, key)(lines[1]) {
      SumOfPair(lines[0], lines[1], PendingTerm(gl, key));
    }
  }

  /** A posting that exceeds no rival, and adds to no other key, passes the gate. */
  lemma FillingPasses(ledger: seq<LedgerRow>, e: PostEvent, pos: ControlPosition)
    requires e.period == Some(pos.period)
    requires forall q | q in Rivals(e.db, pos) ::
               Achieved(ledger, pos.Key(), pos.period, e.date) + Pending(e.gl, e.lines, pos.Key()) <= q.planned
    requires forall key | key != pos.Key() :: Pending(e.gl, e.lines, key) <= 0.0
    ensures !BlockBreach(ledger, e)
  {
    forall q | q in Positions(e.db) && q.enforcement == Block && q.period == pos.period
      ensures !Exceeds(e.gl, ledger, e.date, e.lines, q)
    {
      if q.Key() == pos.Key() {
        assert q in Rivals(e.db, pos);
      } else {
        assert Pending(e.gl, e.lines, q.Key()) <= 0.0;
      }
    }
    forall breach | breach in Breaches(e.db, e.gl, ledger, pos.period, e.date, e.lines) ensures breach.enforcement != Block {
      BreachNamesItsLine(e.db, e.gl, ledger, pos.period, e.date, e.lines, breach);
    }
  }

  /** Exactly when a key is safe from the next posting through the gate, whatever journal it is: no account can be
      posted to, or the key is `Safe`; and then it is safe from unbalanced lines too. Date order is one way to be safe;
      without it, an earlier-dated posting is measured without the later rows, and only the tightest rival can still
      hold the total down. */
  lemma CeilingStepExact(db: Db, ledger: seq<LedgerRow>, gl: Gl, date: Date, pos: ControlPosition)
    ensures (forall lines | AllKnown(gl, lines) && Journal(lines) ::
               KeepsCeiling(ledger, PostEvent(db, gl, Some(pos.period), date, lines), pos))
       <==> (pos.account !in gl.accounts || Safe(db, ledger, date, pos))
    ensures pos.account !in gl.accounts || Safe(db, ledger, date, pos) ==>
              forall lines | AllKnown(gl, lines) :: KeepsCeiling(ledger, PostEvent(db, gl, Some(pos.period), date, lines), pos)
  {
    if pos.account !in gl.accounts || Safe(db, ledger, date, pos) {
      forall lines | AllKnown(gl, lines) ensures KeepsCeiling(ledger, PostEvent(db, gl, Some(pos.period), date, lines), pos) {
        if pos.account in gl.accounts {
          SafeOfferKeepsCeiling(ledger, PostEvent(db, gl, Some(pos.period), date, lines), pos);
        } else {
          PostedTotal(ledger, gl, Some(pos.period), date, lines, pos);
          SumZero(lines, PendingTerm(gl, pos.Key()));
        }
      }
    } else {
      var lines := UnsafeLines(db, ledger, gl, date, pos);
      assert !KeepsCeiling(ledger, PostEvent(db, gl, Some(pos.period), date, lines), pos);
    }
  }

  /** On a key that is not safe, a transfer that fills the tightest rival passes the gate and breaks the ceiling. */
  lemma UnsafeLines(db: Db, ledger: seq<LedgerRow>, gl: Gl, date: Date, pos: ControlPosition) returns (lines: seq<PostingLine>)
    requires pos.account in gl.accounts && !Safe(db, ledger, date, pos)
    ensures AllKnown(gl, lines) && Journal(lines)
    ensures !KeepsCeiling(ledger, PostEvent(db, gl, Some(pos.period), date, lines), pos)
  {
    var achieved := Achieved(ledger, pos.Key(), pos.period, date);
    var amount := Max(pos.planned, Total(ledger, pos)) - Total(ledger, pos) + 1.0;
    if Rivals(db, pos) != {} {
      var q := TightestOf(Rivals(db, pos));
      amount := q.planned - achieved;
    }
    lines := Transfer(gl, pos, amount);
    TransferFills(gl, pos, amount);
    FillingPasses(ledger, PostEvent(db, gl, Some(pos.period), date, lines), pos);
    PostedTotal(ledger, gl, Some(pos.period), date, lines, pos);
  }

  // ── whole runs ─────────────────────────────────────────────────────────────

  /** Each posting into the position's period meets a safe key. */
  ghost predicate SafeRun(ledger: seq<LedgerRow>, events: seq<PostEvent>, pos: ControlPosition)
    requires Postable(events)
    decreases |events|
  {
    events != [] ==>
      && (events[0].period == Some(pos.period) ==> Safe(events[0].db, ledger, events[0].date, pos))
      && SafeRun(Offer(ledger, events[0]), events[1..], pos)
  }

  /** The ceiling over whole runs in any date order: if each posting meets a safe key, the movement never exceeds
      the larger of the plan and what was already there, however long the run. */
  lemma {:induction false} SafeRunKeepsCeiling(ledger: seq<LedgerRow>, events: seq<PostEvent>, pos: ControlPosition)
    requires Postable(events) && SafeRun(ledger, events, pos)
    ensures Total(Run(ledger, events), pos) <= Max(pos.planned, Total(ledger, pos))
    decreases |events|
  {
    if events != [] {
      SafeOfferKeepsCeiling(ledger, events[0], pos);
      SafeRunKeepsCeiling(Offer(ledger, events[0]), events[1..], pos);
    }
  }

  /** Nothing is dated later, so the blocking position itself makes its key safe. */
  lemma InOrderIsSafe(db: Db, ledger: seq<LedgerRow>, date: Date, pos: ControlPosition)
    requires NothingLater(ledger, date) && pos in Positions(db) && pos.enforcement == Block
    ensures Safe(db, ledger, date, pos)
  {
    TotalThrough(ledger, pos, date);
    assert pos in Rivals(db, pos);
  }

  lemma {:induction false} InOrderRunIsSafe(ledger: seq<LedgerRow>, events: seq<PostEvent>, pos: ControlPosition)
    requires Postable(events) && InDateOrder(events) && Blocks(pos, events)
    requires events != [] ==> NothingLater(ledger, events[0].date)
    ensures SafeRun(ledger, events, pos)
    decreases |events|
  {
    if events != [] {
      var e, rest := events[0], events[1..];
      RowsDated(e.gl, e.period, e.date, e.lines);
      if e.period == Some(pos.period) {
        InOrderIsSafe(e.db, ledger, e.date, pos);
      }
      InOrderRunIsSafe(Offer(ledger, e), rest, pos);
    }
  }

  /** The ceiling for callers that keep dates in order: if every posting passes the gate and dates never go back, the
      movement on a block position never exceeds the larger of its plan and what was already there. */
  lemma BlockCeiling(ledger: seq<LedgerRow>, events: seq<PostEvent>, pos: ControlPosition)
    requires Postable(events) && InDateOrder(events) && Blocks(pos, events)
    requires events != [] ==> NothingLater(ledger, events[0].date)
    ensures Total(Run(ledger, events), pos) <= Max(pos.planned, Total(ledger, pos))
  {
    InOrderRunIsSafe(ledger, events, pos);
    SafeRunKeepsCeiling(ledger, events, pos);
  }

  lemma {:induction false} RunDated(ledger: seq<LedgerRow>, events: seq<PostEvent>, through: Date)
    requires Postable(events) && NothingLater(ledger, through)
    requires forall e | e in events :: e.date <= through
    ensures NothingLater(Run(ledger, events), through)
    decreases |events|
  {
    if events != [] {
      var e := events[0];
      RowsDated(e.gl, e.period, e.date, e.lines);
      RunDated(Offer(ledger, e), events[1..], through);
    }
  }

  /** The same ceiling at every moment of the run, as the achievement report would show it: after any
      number of the events, through any date not before the ledger's last. */
  lemma BlockCeilingAsReported(ledger: seq<LedgerRow>, events: seq<PostEvent>, pos: ControlPosition, n: nat, start: Date, through: Date)
    requires Postable(events) && InDateOrder(events) && Blocks(pos, events) && n <= |events|
    requires NothingLater(ledger, start) && (events != [] ==> start <= events[0].date)
    requires start <= through && forall e | e in events[..n] :: e.date <= through
    ensures Postable(events[..n])
    ensures Achieved(Run(ledger, events[..n]), pos.Key(), pos.period, through)
         <= Max(pos.planned, Achieved(ledger, pos.Key(), pos.period, start))
  {
    BlockCeiling(ledger, events[..n], pos);
    RunDated(ledger, events[..n], through);
    TotalThrough(Run(ledger, events[..n]), pos, through);
    TotalThrough(ledger, pos, start);
  }

  // ── a run out of date order ────────────────────────────────────────────────

  const MASTERS := Gl(true,
    map[1 := Account(true, false, true, false, DebitNormal), 2 := Account(true, false, true, false, DebitNormal)],
    map[], map[7 := Period(1, 31, 2026, Some(1), false)])
  const PLAN := Db(map[3 := Budget("B", "B", None, 2026, 1, 31, Confirmed, Block, false)],
                   map[5 := BudgetLine(3, 1, None, 7, 2026, Some(1), 100.0, None, false)])
  const PLANNED_HUNDRED := ControlPosition(3, 5, 1, None, 7, 100.0, Block)

  /** Ninety spent on the planned account, paid from another. */
  const SPENT := PostingLine(1, 90.0, 0.0, None)
  const PAID := PostingLine(2, 0.0, 90.0, None)

  function NinetyOn(date: Date): PostEvent {
    PostEvent(PLAN, MASTERS, Some(7), date, [SPENT, PAID])
  }

  lemma NinetyIsJournal(date: Date)
    ensures var lines := NinetyOn(date).lines;
            && AllKnown(MASTERS, lines)
            && Journal(lines)
            && Pending(MASTERS, lines, PLANNED_HUNDRED.Key()) == 90.0
            && forall key | key != PLANNED_HUNDRED.Key() :: Pending(MASTERS, lines, key) <= 0.0
  {
    SumOfPair(SPENT, PAID, DebitOf);
    SumOfPair(SPENT, PAID, CreditOf);
    forall key ensures Pending(MASTERS, [SPENT, PAID], key) == PendingTerm(MASTERS, key)(SPENT) + PendingTerm(MASTERS, key)(PAID) {
      SumOfPair(SPENT, PAID, PendingTerm(MASTERS, key));
    }
  }

  lemma OnePosition()
    ensures Positions(PLAN) == {PLANNED_HUNDRED}
  {
    assert PositionOf(PLAN, 5) == PLANNED_HUNDRED && Positions(PLAN) == {PositionOf(PLAN, 5)};
  }

  lemma NinetyPasses(ledger: seq<LedgerRow>, date: Date)
    requires 1 <= date <= 31
    requires Achieved(ledger, PLANNED_HUNDRED.Key(), 7, date) == 0.0
    ensures NarrowestCovering(MASTERS, date, 7)
    ensures AllKnown(MASTERS, NinetyOn(date).lines) && Journal(NinetyOn(date).lines)
    ensures !BlockBreach(ledger, NinetyOn(date))
    ensures Total(Offer(ledger, NinetyOn(date)), PLANNED_HUNDRED) == Total(ledger, PLANNED_HUNDRED) + 90.0
  {
    OnePosition();
    NinetyIsJournal(date);
    FillingPasses(ledger, NinetyOn(date), PLANNED_HUNDRED);
    PostedTotal(ledger, MASTERS, Some(7), date, NinetyOn(date).lines, PLANNED_HUNDRED);
  }

  /** A backdated run refutes the ceiling: plan 100, ninety posted on the 20th, then ninety more dated the 10th.
      The second evaluation sees nothing through the 10th and passes, and 180 stand against a plan of 100. */
  lemma BackdatedRunBreaksCeiling() returns (events: seq<PostEvent>, pos: ControlPosition)
    ensures Postable(events) && Blocks(pos, events) && !InDateOrder(events)
    ensures forall e | e in events :: Journal(e.lines)
    ensures forall e | e in events :: NarrowestCovering(e.gl, e.date, pos.period) && e.period == Some(pos.period)
    ensures |events| == 2 && !BlockBreach([], events[0]) && !BlockBreach(Offer([], events[0]), events[1])
    ensures Total(Run([], events), pos) > Max(pos.planned, Total([], pos))
  {
    pos := PLANNED_HUNDRED;
    var late, early := NinetyOn(20), NinetyOn(10);
    events := [late, early];
    NinetyPasses([], 20);
    var ledger := Offer([], late);
    PostThenMeasure(MASTERS, [], Some(7), 20, late.lines, pos.Key(), 7, 10);
    NinetyPasses(ledger, 10);
    OnePosition();
    assert events[0].date > events[1].date;
    assert events[1..] == [early] && [early][1..] == [];
    assert Run(ledger, [early]) == Run(Offer(ledger, early), []);
  }
}
