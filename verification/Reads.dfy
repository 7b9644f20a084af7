/** The reads of `BudgetReadRepository`, as pure functions over the tables.

    A query without an ORDER BY denotes a set of rows: every row carries enough
    of its key to be told from the others. A query whose order is only partly
    fixed, or that picks one row among equals, denotes a predicate. */
module BudgetReads {
  import opened BudgetTypes
  import opened Sums

  // ── master-data guards ─────────────────────────────────────────────────────

  predicate AccountPostable(gl: Gl, a: AccountId) {
    a in gl.accounts &&
    var account := gl.accounts[a];
    account.isDetail && !account.isHeader && account.active && !account.deleted
  }

  predicate CostCenterUsable(gl: Gl, c: CostCenterId) {
    c in gl.costCenters &&
    var center := gl.costCenters[c];
    !center.isGroup && center.active && !center.deleted
  }

  function FindPeriod(gl: Gl, p: PeriodId): Option<Period> {
    if p in gl.periods && !gl.periods[p].deleted then Some(gl.periods[p]) else None
  }

  predicate Covers(gl: Gl, p: PeriodId, date: Date) {
    p in gl.periods && !gl.periods[p].deleted && gl.periods[p].start <= date <= gl.periods[p].end
  }

  function Width(gl: Gl, p: PeriodId): int
    requires p in gl.periods
  {
    gl.periods[p].end - gl.periods[p].start
  }

  /** `p` is a possible answer of the period lookup: of the live periods covering the date, one of least width. */
  ghost predicate NarrowestCovering(gl: Gl, date: Date, p: PeriodId) {
    && Covers(gl, p, date)
    && forall q | q in gl.periods && Covers(gl, q, date) :: Width(gl, p) <= Width(gl, q)
  }

  method PeriodCovering(gl: Gl, date: Date) returns (found: Option<PeriodId>)
    ensures found.Some? ==> NarrowestCovering(gl, date, found.value)
    ensures found.Some? ==>
              && found.value in gl.periods
              && !gl.periods[found.value].deleted
              && gl.periods[found.value].start <= date <= gl.periods[found.value].end
              && forall q | q in gl.periods && !gl.periods[q].deleted && gl.periods[q].start <= date <= gl.periods[q].end ::
                   gl.periods[found.value].end - gl.periods[found.value].start <= gl.periods[q].end - gl.periods[q].start
    ensures found.None? ==> forall q | q in gl.periods && !gl.periods[q].deleted :: date < gl.periods[q].start || gl.periods[q].end < date
  {
    var candidates := FetchAll(gl.periods.Keys);
    found := None;
    for i := 0 to |candidates|
      invariant found.Some? ==> Covers(gl, found.value, date)
      invariant forall q | q in candidates[..i] && Covers(gl, q, date) ::
                  found.Some? && Width(gl, found.value) <= Width(gl, q)
    {
      var q := candidates[i];
      if Covers(gl, q, date) && (found.None? || Width(gl, q) < Width(gl, found.value)) {
        found := Some(q);
      }
    }
    assert candidates[..|candidates|] == candidates;
    assert forall q | q in gl.periods && !gl.periods[q].deleted && gl.periods[q].start <= date <= gl.periods[q].end :: Covers(gl, q, date);
  }

  /** The orientation of the accounts that exist, deleted or not. */
  function NormalBalances(gl: Gl, ids: set<AccountId>): map<AccountId, NormalBalance> {
    map a | a in ids && a in gl.accounts :: gl.accounts[a].normal
  }

  // ── plan positions ─────────────────────────────────────────────────────────

  /** A plan position joined with its budget's enforcement posture. */
  datatype ControlPosition = ControlPosition(
    budget: BudgetId,
    line: LineId,
    account: AccountId,
    costCenter: Option<CostCenterId>,
    period: PeriodId,
    planned: real,
    enforcement: Enforcement)
  {
    function Key(): ControlKey {
      ControlKey(account, costCenter)
    }
  }

  /** The line joins a live budget. */
  predicate Joined(db: Db, l: LineId) {
    LiveLine(db, l) && LiveBudget(db, db.lines[l].budget)
  }

  predicate IsConfirmed(db: Db, b: BudgetId) {
    LiveBudget(db, b) && db.budgets[b].status == Confirmed
  }

  function PositionOf(db: Db, l: LineId): ControlPosition
    requires l in db.lines && db.lines[l].budget in db.budgets
  {
    var line := db.lines[l];
    ControlPosition(line.budget, l, line.account, line.costCenter, line.period, line.planned,
                    db.budgets[line.budget].enforcement)
  }

  /** Everything control can ever see of the plan: the live lines of confirmed budgets. */
  function Positions(db: Db): set<ControlPosition> {
    set l | l in db.lines && Joined(db, l) && IsConfirmed(db, db.lines[l].budget) :: PositionOf(db, l)
  }

  /** The positions of one budget. */
  function PositionsOf(db: Db, b: BudgetId): set<ControlPosition> {
    set pos | pos in Positions(db) && pos.budget == b
  }

  /** The control read: over-wide on purpose, it takes every cost center of the accounts. */
  function ConfirmedPositions(db: Db, accounts: set<AccountId>, period: PeriodId): set<ControlPosition> {
    set l |
      && l in db.lines
      && db.lines[l].account in accounts
      && db.lines[l].period == period
      && Joined(db, l)
      && IsConfirmed(db, db.lines[l].budget)
    :: PositionOf(db, l)
  }

  /** The live positions on one exact key, whatever their budget's status. */
  function Coverage(db: Db, key: LineKey): set<ControlPosition> {
    set l | l in db.lines && KeyOf(db.lines[l]) == key && Joined(db, l) :: PositionOf(db, l)
  }

  // ── the lines of one budget ────────────────────────────────────────────────

  function LiveLinesOf(db: Db, b: BudgetId): set<LineId> {
    set l | l in db.lines && !db.lines[l].deleted && db.lines[l].budget == b
  }

  predicate NotAfter(db: Db, l: LineId, m: LineId) {
    && l in db.lines
    && m in db.lines
    && var line, other := db.lines[l], db.lines[m];
       line.period < other.period || (line.period == other.period && line.account <= other.account)
  }

  ghost predicate Ordered(db: Db, ids: seq<LineId>) {
    forall i, j | 0 <= i < j < |ids| :: NotAfter(db, ids[i], ids[j])
  }

  /** The order of the query: by period, then account; lines that tie on both come in any order. */
  ghost predicate IsLineOrder(db: Db, b: BudgetId, ids: seq<LineId>) {
    Enumerates(ids, LiveLinesOf(db, b)) && Ordered(db, ids)
  }

  method BudgetLines(db: Db, b: BudgetId) returns (ids: seq<LineId>)
    ensures IsLineOrder(db, b, ids)
    ensures forall l :: l in ids <==> l in db.lines && !db.lines[l].deleted && db.lines[l].budget == b
    ensures forall i, j | 0 <= i < j < |ids| :: ids[i] != ids[j]
    ensures forall i, j | 0 <= i < j < |ids| ::
              && ids[i] in db.lines && ids[j] in db.lines
              && var first, second := db.lines[ids[i]], db.lines[ids[j]];
                 first.period < second.period || (first.period == second.period && first.account <= second.account)
  {
    var found := FetchAll(LiveLinesOf(db, b));
    ids := [];
    ghost var taken := {};
    for i := 0 to |found|
      invariant Enumerates(ids, taken) && Ordered(db, ids)
      invariant taken == (set l | l in found[..i]) <= LiveLinesOf(db, b)
    {
      var l, k := found[i], 0;
      while k < |ids| && NotAfter(db, ids[k], l)
        invariant 0 <= k <= |ids|
        invariant forall j | 0 <= j < k :: NotAfter(db, ids[j], l)
      {
        k := k + 1;
      }
      assert l in LiveLinesOf(db, b);
      OrderedInserted(db, ids, l, k);
      EnumeratesInserted(ids, taken, l, k);
      assert found[..i + 1] == found[..i] + [l];
      ids, taken := ids[..k] + [l] + ids[k..], taken + {l};
    }
    assert taken == LiveLinesOf(db, b);
  }

  lemma OrderedInserted(db: Db, ids: seq<LineId>, l: LineId, k: nat)
    requires Ordered(db, ids) && k <= |ids|
    requires l in db.lines && forall m | m in ids :: m in db.lines
    requires forall j | 0 <= j < k :: NotAfter(db, ids[j], l)
    requires k < |ids| ==> !NotAfter(db, ids[k], l)
    ensures Ordered(db, ids[..k] + [l] + ids[k..])
  {
  }

  // ── committed movement ─────────────────────────────────────────────────────

  datatype AchievedRow = AchievedRow(
    account: AccountId,
    costCenter: Option<CostCenterId>,
    period: Option<PeriodId>,
    achieved: real)

  /** A row's movement in the direction of its own post-time stamp. */
  function Movement(r: LedgerRow): real {
    if r.normal == DebitNormal then r.debit - r.credit else r.credit - r.debit
  }

  /** The WHERE clause both movement queries share. A row without a period matches no period. */
  predicate Selects(accounts: set<AccountId>, periods: set<PeriodId>, through: Date, r: LedgerRow) {
    && r.account in accounts
    && r.period.Some?
    && r.period.value in periods
    && r.date <= through
    && !r.deleted
  }

  predicate SameGroup(r: LedgerRow, s: LedgerRow) {
    r.account == s.account && r.costCenter == s.costCenter && r.period == s.period
  }

  /** What a ledger row adds to the group of row `of`. */
  function GroupTerm(accounts: set<AccountId>, periods: set<PeriodId>, through: Date, of: LedgerRow): LedgerRow -> real {
    (r: LedgerRow) => if Selects(accounts, periods, through, r) && SameGroup(r, of) then Movement(r) else 0.0
  }

  /** SELECT ... SUM(...) GROUP BY account, cost center, period. */
  function GroupedMovement(ledger: seq<LedgerRow>, accounts: set<AccountId>, periods: set<PeriodId>, through: Date)
    : set<AchievedRow>
  {
    set r | r in ledger && Selects(accounts, periods, through, r) ::
      AchievedRow(r.account, r.costCenter, r.period, Sum(ledger, GroupTerm(accounts, periods, through, r)))
  }

  /** The control query: one period. */
  function AchievedOnKeys(ledger: seq<LedgerRow>, accounts: set<AccountId>, period: PeriodId, through: Date)
    : set<AchievedRow>
  {
    GroupedMovement(ledger, accounts, {period}, through)
  }

  /** The achievement query: every combination of the accounts and periods. */
  function AchievedPerPeriod(ledger: seq<LedgerRow>, accounts: set<AccountId>, periods: set<PeriodId>, through: Date)
    : set<AchievedRow>
  {
    GroupedMovement(ledger, accounts, periods, through)
  }

  // ── the reference: one key, summed directly ────────────────────────────────

  function KeyTerm(key: ControlKey, period: PeriodId, through: Date): LedgerRow -> real {
    (r: LedgerRow) =>
      if && !r.deleted
         && r.account == key.account
         && r.costCenter == key.costCenter
         && r.period == Some(period)
         && r.date <= through
      then Movement(r) else 0.0
  }

  /** The live movement on one exact key through a date, with no grouping and no wider read. */
  function Achieved(ledger: seq<LedgerRow>, key: ControlKey, period: PeriodId, through: Date): real {
    Sum(ledger, KeyTerm(key, period, through))
  }

  /** Grouping loses and adds nothing: a group's total is the direct sum on its key. */
  lemma GroupIsDirectSum(ledger: seq<LedgerRow>, accounts: set<AccountId>, periods: set<PeriodId>, through: Date,
                         row: AchievedRow)
    requires row in GroupedMovement(ledger, accounts, periods, through)
    ensures row.period.Some?
    ensures row.achieved == Achieved(ledger, ControlKey(row.account, row.costCenter), row.period.value, through)
  {
    var r :| r in ledger && Selects(accounts, periods, through, r) &&
             row == AchievedRow(r.account, r.costCenter, r.period, Sum(ledger, GroupTerm(accounts, periods, through, r)));
    SumCongruent(ledger, GroupTerm(accounts, periods, through, r),
                 KeyTerm(ControlKey(row.account, row.costCenter), row.period.value, through));
  }

  /** A key without a group has no movement. */
  lemma NoGroupNoMovement(ledger: seq<LedgerRow>, accounts: set<AccountId>, periods: set<PeriodId>, through: Date,
                          key: ControlKey, period: PeriodId)
    requires key.account in accounts && period in periods
    requires forall row | row in GroupedMovement(ledger, accounts, periods, through) ::
               !(row.account == key.account && row.costCenter == key.costCenter && row.period == Some(period))
    ensures Achieved(ledger, key, period, through) == 0.0
  {
    forall r | r in ledger ensures KeyTerm(key, period, through)(r) == 0.0 {
      if Selects(accounts, periods, through, r) {
        var row := AchievedRow(r.account, r.costCenter, r.period, Sum(ledger, GroupTerm(accounts, periods, through, r)));
        assert row in GroupedMovement(ledger, accounts, periods, through);
      }
    }
    SumZero(ledger, KeyTerm(key, period, through));
  }
}
