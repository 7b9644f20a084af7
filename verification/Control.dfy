/** `BudgetControlService`: which confirmed positions a prospective posting would
    push over plan, and what each line of a budget has absorbed.

    The methods follow the service's own pipeline of maps and over-wide reads;
    the functions above them say, position by position and with direct sums, what
    the pipeline must compute. */
module BudgetControl {
  import opened BudgetTypes
  import opened BudgetReads
  import opened Sums

  /** One prospective posting line. */
  datatype PostingLine = PostingLine(account: AccountId, debit: real, credit: real, costCenter: Option<CostCenterId>)

  datatype Breach = Breach(
    budget: BudgetId,
    line: LineId,
    account: AccountId,
    costCenter: Option<CostCenterId>,
    period: PeriodId,
    planned: real,
    achieved: real,
    pending: real,
    enforcement: Enforcement)

  datatype AchievementRow = AchievementRow(
    budget: BudgetId,
    line: LineId,
    account: AccountId,
    costCenter: Option<CostCenterId>,
    period: PeriodId,
    planned: real,
    achieved: real,
    remaining: real,
    utilization: real)

  datatype ControlError = AccountingUnwired | Internal

  function NormalDirection(normal: NormalBalance, debit: real, credit: real): real {
    if normal == DebitNormal then debit - credit else credit - debit
  }

  // ── the specification ──────────────────────────────────────────────────────

  /** What one posting line adds to a key. A line on an unknown account adds nothing. */
  function PendingTerm(gl: Gl, key: ControlKey): PostingLine -> real {
    (l: PostingLine) =>
      if l.account == key.account && l.costCenter == key.costCenter && l.account in gl.accounts
      then NormalDirection(gl.accounts[l.account].normal, l.debit, l.credit)
      else 0.0
  }

  /** The signed sum of the posting's lines on one exact key. */
  function Pending(gl: Gl, lines: seq<PostingLine>, key: ControlKey): real {
    Sum(lines, PendingTerm(gl, key))
  }

  predicate Exceeds(gl: Gl, ledger: seq<LedgerRow>, date: Date, lines: seq<PostingLine>, pos: ControlPosition) {
    var p := Pending(gl, lines, pos.Key());
    p > 0.0 && Achieved(ledger, pos.Key(), pos.period, date) + p > pos.planned
  }

  function BreachOf(gl: Gl, ledger: seq<LedgerRow>, date: Date, lines: seq<PostingLine>, pos: ControlPosition): Breach {
    Breach(pos.budget, pos.line, pos.account, pos.costCenter, pos.period, pos.planned,
           Achieved(ledger, pos.Key(), pos.period, date), Pending(gl, lines, pos.Key()), pos.enforcement)
  }

  /** The breaches of a posting in one fiscal period: no maps, no groups, no account filter. */
  function Breaches(db: Db, gl: Gl, ledger: seq<LedgerRow>, period: PeriodId, date: Date, lines: seq<PostingLine>)
    : set<Breach>
  {
    set pos | pos in Positions(db) && pos.period == period && Exceeds(gl, ledger, date, lines, pos) ::
      BreachOf(gl, ledger, date, lines, pos)
  }

  /** The breaches of listed positions, in the order of the list. */
  function Reported(gl: Gl, ledger: seq<LedgerRow>, date: Date, lines: seq<PostingLine>, positions: seq<ControlPosition>)
    : seq<Breach>
  {
    if positions == [] then [] else
      var last := positions[|positions| - 1];
      Reported(gl, ledger, date, lines, positions[..|positions| - 1])
      + (if Exceeds(gl, ledger, date, lines, last) then [BreachOf(gl, ledger, date, lines, last)] else [])
  }

  /** The breaches of given positions. */
  function BreachesAmong(gl: Gl, ledger: seq<LedgerRow>, date: Date, lines: seq<PostingLine>, positions: set<ControlPosition>)
    : set<Breach>
  {
    set pos | pos in positions && Exceeds(gl, ledger, date, lines, pos) :: BreachOf(gl, ledger, date, lines, pos)
  }

  lemma {:induction false} ReportedOnlyBreaches(gl: Gl, ledger: seq<LedgerRow>, date: Date, lines: seq<PostingLine>,
                                                positions: seq<ControlPosition>, breach: Breach)
    requires breach in Reported(gl, ledger, date, lines, positions)
    ensures exists pos | pos in positions :: Exceeds(gl, ledger, date, lines, pos) && breach == BreachOf(gl, ledger, date, lines, pos)
  {
    var rest, last := positions[..|positions| - 1], positions[|positions| - 1];
    if breach in Reported(gl, ledger, date, lines, rest) {
      ReportedOnlyBreaches(gl, ledger, date, lines, rest, breach);
    } else {
      assert last in positions && breach == BreachOf(gl, ledger, date, lines, last);
    }
  }

  lemma {:induction false} ReportedEveryBreach(gl: Gl, ledger: seq<LedgerRow>, date: Date, lines: seq<PostingLine>,
                                               positions: seq<ControlPosition>, pos: ControlPosition)
    requires pos in positions && Exceeds(gl, ledger, date, lines, pos)
    ensures BreachOf(gl, ledger, date, lines, pos) in Reported(gl, ledger, date, lines, positions)
  {
    var rest, last := positions[..|positions| - 1], positions[|positions| - 1];
    if pos != last {
      assert pos in rest;
      ReportedEveryBreach(gl, ledger, date, lines, rest, pos);
    }
  }

  lemma {:induction false} ReportedOnce(gl: Gl, ledger: seq<LedgerRow>, date: Date, lines: seq<PostingLine>, positions: seq<ControlPosition>)
    requires Distinct(positions)
    ensures Distinct(Reported(gl, ledger, date, lines, positions))
  {
    if positions != [] {
      var rest, last := positions[..|positions| - 1], positions[|positions| - 1];
      ReportedOnce(gl, ledger, date, lines, rest);
      var breach := BreachOf(gl, ledger, date, lines, last);
      if breach in Reported(gl, ledger, date, lines, rest) {
        ReportedOnlyBreaches(gl, ledger, date, lines, rest, breach);
      }
    }
  }

  lemma ReportedEnumerates(gl: Gl, ledger: seq<LedgerRow>, date: Date, lines: seq<PostingLine>,
                           positions: seq<ControlPosition>, expected: set<ControlPosition>)
    requires Enumerates(positions, expected)
    ensures Enumerates(Reported(gl, ledger, date, lines, positions), BreachesAmong(gl, ledger, date, lines, expected))
  {
    var report, breaches := Reported(gl, ledger, date, lines, positions), BreachesAmong(gl, ledger, date, lines, expected);
    ReportedOnce(gl, ledger, date, lines, positions);
    forall breach | breach in report ensures breach in breaches {
      ReportedOnlyBreaches(gl, ledger, date, lines, positions, breach);
    }
    forall breach | breach in breaches ensures breach in report {
      var pos :| pos in expected && Exceeds(gl, ledger, date, lines, pos) && breach == BreachOf(gl, ledger, date, lines, pos);
      ReportedEveryBreach(gl, ledger, date, lines, positions, pos);
    }
  }

  /** A possible answer to an evaluation: nothing when no period covers the date, else the
      breaches of a narrowest covering period, each reported once. */
  ghost predicate IsEvaluation(db: Db, gl: Gl, ledger: seq<LedgerRow>, date: Date, lines: seq<PostingLine>,
                               breaches: seq<Breach>) {
    if exists p :: NarrowestCovering(gl, date, p) then
      exists p :: NarrowestCovering(gl, date, p) && Enumerates(breaches, Breaches(db, gl, ledger, p, date, lines))
    else
      breaches == []
  }

  // ── the specification, told on the rows ────────────────────────────────────

  /** The breach shows its own line and its own budget, and its amounts are that line's movement and pending. */
  ghost predicate ShowsItsLine(db: Db, gl: Gl, ledger: seq<LedgerRow>, date: Date, lines: seq<PostingLine>, breach: Breach) {
    && breach.line in db.lines
    && var line := db.lines[breach.line];
       && !line.deleted
       && breach.budget == line.budget
       && breach.account == line.account
       && breach.costCenter == line.costCenter
       && breach.period == line.period
       && breach.planned == line.planned
       && breach.achieved == Achieved(ledger, ControlKey(line.account, line.costCenter), line.period, date)
       && breach.pending == Pending(gl, lines, ControlKey(line.account, line.costCenter))
       && breach.budget in db.budgets
       && !db.budgets[breach.budget].deleted
       && db.budgets[breach.budget].status == Confirmed
       && breach.enforcement == db.budgets[breach.budget].enforcement
  }

  /** A live line of a live confirmed budget in the period, pushed over plan. */
  ghost predicate PushedOver(db: Db, gl: Gl, ledger: seq<LedgerRow>, period: PeriodId, date: Date, lines: seq<PostingLine>, l: LineId) {
    && l in db.lines
    && var line := db.lines[l];
       && !line.deleted
       && line.period == period
       && line.budget in db.budgets
       && !db.budgets[line.budget].deleted
       && db.budgets[line.budget].status == Confirmed
       && var p := Pending(gl, lines, ControlKey(line.account, line.costCenter));
          p > 0.0 && Achieved(ledger, ControlKey(line.account, line.costCenter), period, date) + p > line.planned
  }

  /** A live period on the date, none of which is shorter. */
  predicate ShortestOn(gl: Gl, date: Date, p: PeriodId) {
    && p in gl.periods
    && !gl.periods[p].deleted
    && gl.periods[p].start <= date <= gl.periods[p].end
    && forall q | q in gl.periods && !gl.periods[q].deleted && gl.periods[q].start <= date <= gl.periods[q].end ::
         gl.periods[p].end - gl.periods[p].start <= gl.periods[q].end - gl.periods[q].start
  }

  lemma ShortestIsNarrowest(gl: Gl, date: Date, p: PeriodId)
    ensures ShortestOn(gl, date, p) <==> NarrowestCovering(gl, date, p)
  {
    assert forall q | q in gl.periods :: Covers(gl, q, date) <==>
             !gl.periods[q].deleted && gl.periods[q].start <= date <= gl.periods[q].end;
    assert forall q | q in gl.periods :: Width(gl, q) == gl.periods[q].end - gl.periods[q].start;
  }

  /** The breaches of a period are one for each line pushed over, each showing its line. */
  lemma BreachesOnRows(db: Db, gl: Gl, ledger: seq<LedgerRow>, period: PeriodId, date: Date, lines: seq<PostingLine>, breach: Breach)
    ensures breach in Breaches(db, gl, ledger, period, date, lines) <==>
              ShowsItsLine(db, gl, ledger, date, lines, breach) && PushedOver(db, gl, ledger, period, date, lines, breach.line)
  {
    if ShowsItsLine(db, gl, ledger, date, lines, breach) && PushedOver(db, gl, ledger, period, date, lines, breach.line) {
      var pos := PositionOf(db, breach.line);
      assert pos in Positions(db) && BreachOf(gl, ledger, date, lines, pos) == breach;
    }
  }

  /** One breach for each line pushed over in the period, no line twice, each breach showing its line. */
  ghost predicate ListsPushedOver(db: Db, gl: Gl, ledger: seq<LedgerRow>, p: PeriodId, date: Date, lines: seq<PostingLine>,
                                  breaches: seq<Breach>) {
    && (forall breach | breach in breaches :: ShowsItsLine(db, gl, ledger, date, lines, breach) && breach.period == p)
    && (forall i, j | 0 <= i < j < |breaches| :: breaches[i].line != breaches[j].line)
    && (forall l :: (exists breach | breach in breaches :: breach.line == l) <==> PushedOver(db, gl, ledger, p, date, lines, l))
  }

  /** What an evaluation must answer, told on the rows: the lines pushed over in one shortest period on the date, or
      nothing when no period is on the date. */
  ghost predicate AnswersOnRows(db: Db, gl: Gl, ledger: seq<LedgerRow>, date: Date, lines: seq<PostingLine>, breaches: seq<Breach>) {
    if exists p :: ShortestOn(gl, date, p)
    then exists p :: ShortestOn(gl, date, p) && ListsPushedOver(db, gl, ledger, p, date, lines, breaches)
    else breaches == []
  }

  lemma EvaluationOnRows(db: Db, gl: Gl, ledger: seq<LedgerRow>, date: Date, lines: seq<PostingLine>, breaches: seq<Breach>)
    requires IsEvaluation(db, gl, ledger, date, lines, breaches)
    ensures AnswersOnRows(db, gl, ledger, date, lines, breaches)
  {
    forall p ensures ShortestOn(gl, date, p) <==> NarrowestCovering(gl, date, p) {
      ShortestIsNarrowest(gl, date, p);
    }
    if exists p :: NarrowestCovering(gl, date, p) {
      var q :| NarrowestCovering(gl, date, q) && Enumerates(breaches, Breaches(db, gl, ledger, q, date, lines));
      ListedOnRows(db, gl, ledger, q, date, lines, breaches);
    }
  }

  /** When a month and a longer period both cover the date, and no other period does, the month is controlled. */
  lemma ShorterPeriodControls(db: Db, gl: Gl, ledger: seq<LedgerRow>, date: Date, lines: seq<PostingLine>, breaches: seq<Breach>,
                              month: PeriodId)
    requires IsEvaluation(db, gl, ledger, date, lines, breaches)
    requires month in gl.periods && !gl.periods[month].deleted && gl.periods[month].start <= date <= gl.periods[month].end
    requires forall q | q in gl.periods && q != month && !gl.periods[q].deleted && gl.periods[q].start <= date <= gl.periods[q].end ::
               gl.periods[month].end - gl.periods[month].start < gl.periods[q].end - gl.periods[q].start
    ensures ListsPushedOver(db, gl, ledger, month, date, lines, breaches)
  {
    EvaluationOnRows(db, gl, ledger, date, lines, breaches);
    assert ShortestOn(gl, date, month);
  }

  lemma ListedOnRows(db: Db, gl: Gl, ledger: seq<LedgerRow>, p: PeriodId, date: Date, lines: seq<PostingLine>, breaches: seq<Breach>)
    requires Enumerates(breaches, Breaches(db, gl, ledger, p, date, lines))
    ensures ListsPushedOver(db, gl, ledger, p, date, lines, breaches)
  {
    forall breach: Breach ensures breach in breaches <==>
      ShowsItsLine(db, gl, ledger, date, lines, breach) && PushedOver(db, gl, ledger, p, date, lines, breach.line)
    {
      BreachesOnRows(db, gl, ledger, p, date, lines, breach);
    }
    forall i, j | 0 <= i < j < |breaches| ensures breaches[i].line != breaches[j].line {
      assert breaches[i] in breaches && breaches[j] in breaches && breaches[i] != breaches[j];
    }
    forall l | PushedOver(db, gl, ledger, p, date, lines, l) ensures exists breach | breach in breaches :: breach.line == l {
      var pos := PositionOf(db, l);
      assert ShowsItsLine(db, gl, ledger, date, lines, BreachOf(gl, ledger, date, lines, pos));
    }
  }

  /** Pending, line by line: each known line on the exact account and cost center counts in its account's direction. */
  lemma PendingGrows(gl: Gl, lines: seq<PostingLine>, line: PostingLine, key: ControlKey)
    ensures Pending(gl, [], key) == 0.0
    ensures Pending(gl, lines + [line], key) == Pending(gl, lines, key) +
              if line.account != key.account || line.costCenter != key.costCenter || line.account !in gl.accounts then 0.0
              else if gl.accounts[line.account].normal == DebitNormal then line.debit - line.credit
              else line.credit - line.debit
  {
    SumNext(lines + [line], |lines|, PendingTerm(gl, key));
    assert (lines + [line])[..|lines|] == lines && (lines + [line])[..|lines| + 1] == lines + [line];
  }

  /** Movement, row by row: each live row on the exact account, cost center and period, dated through the date,
      counts in the direction of its own stamp. */
  lemma AchievedGrows(ledger: seq<LedgerRow>, r: LedgerRow, key: ControlKey, period: PeriodId, through: Date)
    ensures Achieved([], key, period, through) == 0.0
    ensures Achieved(ledger + [r], key, period, through) == Achieved(ledger, key, period, through) +
              if r.deleted || r.account != key.account || r.costCenter != key.costCenter || r.period != Some(period) || r.date > through
              then 0.0
              else if r.normal == DebitNormal then r.debit - r.credit
              else r.credit - r.debit
  {
    SumNext(ledger + [r], |ledger|, KeyTerm(key, period, through));
    assert (ledger + [r])[..|ledger|] == ledger && (ledger + [r])[..|ledger| + 1] == ledger + [r];
  }

  // ── the pipeline ───────────────────────────────────────────────────────────

  /** HashMap lookup with a default of zero. */
  function GetOrZero<K>(m: map<K, real>, key: K): real {
    if key in m then m[key] else 0.0
  }

  function AccountsOf(lines: seq<PostingLine>): set<AccountId> {
    set l | l in lines :: l.account
  }

  /** The accounts of the lines, sorted and without repeats. */
  method DistinctAccounts(lines: seq<PostingLine>) returns (ids: seq<AccountId>)
    ensures Enumerates(ids, AccountsOf(lines))
    ensures forall i, j | 0 <= i < j < |ids| :: ids[i] < ids[j]
  {
    ids := [];
    for n := 0 to |lines|
      invariant forall i, j | 0 <= i < j < |ids| :: ids[i] < ids[j]
      invariant Enumerates(ids, AccountsOf(lines[..n]))
    {
      var a, k := lines[n].account, 0;
      while k < |ids| && ids[k] < a
        invariant 0 <= k <= |ids|
        invariant forall j | 0 <= j < k :: ids[j] < a
      {
        k := k + 1;
      }
      assert lines[..n + 1] == lines[..n] + [lines[n]];
      assert AccountsOf(lines[..n + 1]) == AccountsOf(lines[..n]) + {a};
      if k == |ids| || ids[k] != a {
        EnumeratesInserted(ids, AccountsOf(lines[..n]), a, k);
        ids := ids[..k] + [a] + ids[k..];
      }
    }
    assert lines[..|lines|] == lines;
  }

  /** Fold the oriented lines into a map per exact key. */
  method PendingByKey(gl: Gl, lines: seq<PostingLine>, orientations: map<AccountId, NormalBalance>)
    returns (pending: map<ControlKey, real>)
    requires orientations == NormalBalances(gl, AccountsOf(lines))
    ensures forall key :: GetOrZero(pending, key) == Pending(gl, lines, key)
  {
    pending := map[];
    for i := 0 to |lines|
      invariant forall key :: GetOrZero(pending, key) == Pending(gl, lines[..i], key)
    {
      var line := lines[i];
      ghost var before := pending;
      if line.account in orientations {
        var contribution := NormalDirection(orientations[line.account], line.debit, line.credit);
        var key := ControlKey(line.account, line.costCenter);
        pending := pending[key := GetOrZero(pending, key) + contribution];
      }
      forall key ensures GetOrZero(pending, key) == Pending(gl, lines[..i + 1], key) {
        SumNext(lines, i, PendingTerm(gl, key));
        assert GetOrZero(before, key) == Pending(gl, lines[..i], key);
        assert line.account in AccountsOf(lines);
      }
    }
    assert lines[..|lines|] == lines;
  }

  function KeyOfGroup(row: AchievedRow): ControlKey {
    ControlKey(row.account, row.costCenter)
  }

  /** The map holds only groups that have a period, each under its key, and every key of one is present. */
  ghost predicate Collected<K>(rows: seq<AchievedRow>, keyOf: AchievedRow -> K, m: map<K, real>) {
    && (forall key | key in m :: exists row | row in rows :: row.period.Some? && keyOf(row) == key && row.achieved == m[key])
    && (forall row | row in rows && row.period.Some? :: keyOf(row) in m)
  }

  /** Collect fetched groups into a map; a group without a period is dropped. */
  method AchievedByKey<K(==)>(rows: seq<AchievedRow>, keyOf: AchievedRow -> K) returns (m: map<K, real>)
    ensures Collected(rows, keyOf, m)
  {
    m := map[];
    for i := 0 to |rows|
      invariant Collected(rows[..i], keyOf, m)
    {
      var row := rows[i];
      assert rows[..i + 1] == rows[..i] + [row];
      if row.period.Some? {
        m := m[keyOf(row) := row.achieved];
      }
    }
    assert rows[..|rows|] == rows;
  }

  /** The collected map answers with the direct sum on every key of the accounts read. */
  lemma CollectedIsDirect(ledger: seq<LedgerRow>, accounts: set<AccountId>, period: PeriodId, through: Date,
                          rows: seq<AchievedRow>, m: map<ControlKey, real>, key: ControlKey)
    requires Enumerates(rows, AchievedOnKeys(ledger, accounts, period, through))
    requires key.account in accounts
    requires Collected(rows, KeyOfGroup, m)
    ensures GetOrZero(m, key) == Achieved(ledger, key, period, through)
  {
    if key in m {
      var row :| row in rows && row.period.Some? && KeyOfGroup(row) == key && row.achieved == m[key];
      GroupIsDirectSum(ledger, accounts, {period}, through, row);
      assert row.period == Some(period);
    } else {
      NoGroupNoMovement(ledger, accounts, {period}, through, key, period);
    }
  }

  lemma NoLineNoPending(gl: Gl, lines: seq<PostingLine>, key: ControlKey)
    requires key.account !in AccountsOf(lines)
    ensures Pending(gl, lines, key) == 0.0
  {
    SumZero(lines, PendingTerm(gl, key));
  }

  /** Compare position by position; only net-positive keys can breach. */
  method Compare(positions: seq<ControlPosition>, pending: map<ControlKey, real>, achievedMap: map<ControlKey, real>,
                 ghost gl: Gl, ghost ledger: seq<LedgerRow>, ghost date: Date, ghost lines: seq<PostingLine>)
    returns (breaches: seq<Breach>)
    requires forall key :: GetOrZero(pending, key) == Pending(gl, lines, key)
    requires forall pos | pos in positions ::
               GetOrZero(achievedMap, pos.Key()) == Achieved(ledger, pos.Key(), pos.period, date)
    ensures breaches == Reported(gl, ledger, date, lines, positions)
    ensures forall breach | breach in breaches :: exists pos | pos in positions ::
              && breach == Breach(pos.budget, pos.line, pos.account, pos.costCenter, pos.period, pos.planned,
                                  Achieved(ledger, ControlKey(pos.account, pos.costCenter), pos.period, date),
                                  Pending(gl, lines, ControlKey(pos.account, pos.costCenter)), pos.enforcement)
              && breach.pending > 0.0
              && breach.achieved + breach.pending > breach.planned
    ensures forall pos | pos in positions ::
              var achieved := Achieved(ledger, ControlKey(pos.account, pos.costCenter), pos.period, date);
              var p := Pending(gl, lines, ControlKey(pos.account, pos.costCenter));
              p > 0.0 && achieved + p > pos.planned ==>
                Breach(pos.budget, pos.line, pos.account, pos.costCenter, pos.period, pos.planned, achieved, p, pos.enforcement) in breaches
  {
    breaches := [];
    for i := 0 to |positions|
      invariant breaches == Reported(gl, ledger, date, lines, positions[..i])
    {
      var pos := positions[i];
      var key := pos.Key();
      assert positions[..i + 1][..i] == positions[..i] && pos in positions;
      assert GetOrZero(pending, key) == Pending(gl, lines, key);
      if key !in pending || pending[key] <= 0.0 {
        continue;
      }
      var achieved := GetOrZero(achievedMap, key);
      if achieved + pending[key] > pos.planned {
        breaches := breaches + [Breach(pos.budget, pos.line, pos.account, pos.costCenter, pos.period, pos.planned,
                                       achieved, pending[key], pos.enforcement)];
      }
    }
    assert positions[..|positions|] == positions;
    forall breach | breach in breaches
      ensures exists pos | pos in positions :: Exceeds(gl, ledger, date, lines, pos) && breach == BreachOf(gl, ledger, date, lines, pos)
    {
      ReportedOnlyBreaches(gl, ledger, date, lines, positions, breach);
    }
    forall pos | pos in positions && Exceeds(gl, ledger, date, lines, pos) ensures BreachOf(gl, ledger, date, lines, pos) in breaches {
      ReportedEveryBreach(gl, ledger, date, lines, positions, pos);
    }
  }

  /** The evaluation refines the specification: whatever order the queries answer in, it
      reports exactly the breaches of the narrowest covering period, each once. */
  method EvaluatePostingOn(db: Db, gl: Gl, ledger: seq<LedgerRow>, date: Date, lines: seq<PostingLine>)
    returns (r: Result<seq<Breach>, ControlError>)
    ensures !gl.wired ==> r == Err(AccountingUnwired)
    ensures gl.wired ==> r.Ok? && IsEvaluation(db, gl, ledger, date, lines, r.value)
    ensures gl.wired ==> AnswersOnRows(db, gl, ledger, date, lines, r.value)
  {
    if !gl.wired {
      return Err(AccountingUnwired);
    }
    var period := PeriodCovering(gl, date);
    if period.None? {
      EvaluationOnRows(db, gl, ledger, date, lines, []);
      return Ok([]);
    }
    var accountIds := DistinctAccounts(lines);
    var wanted := set a | a in accountIds;
    assert wanted == AccountsOf(lines);
    var pending := PendingByKey(gl, lines, NormalBalances(gl, wanted));
    ghost var expected := Breaches(db, gl, ledger, period.value, date, lines);
    if pending == map[] {
      assert expected == {} by {
        forall pos: ControlPosition ensures Pending(gl, lines, pos.Key()) == 0.0 {
          assert GetOrZero(pending, pos.Key()) == 0.0;
        }
      }
      EvaluationOnRows(db, gl, ledger, date, lines, []);
      return Ok([]);
    }
    var positions := FetchAll(ConfirmedPositions(db, wanted, period.value));
    var accountsForRead := set pos | pos in positions :: pos.account;
    var rows := FetchAll(AchievedOnKeys(ledger, accountsForRead, period.value, date));
    var achievedMap := AchievedByKey(rows, KeyOfGroup);
    forall pos | pos in positions
      ensures GetOrZero(achievedMap, pos.Key()) == Achieved(ledger, pos.Key(), pos.period, date)
    {
      CollectedIsDirect(ledger, accountsForRead, period.value, date, rows, achievedMap, pos.Key());
    }
    var breaches := Compare(positions, pending, achievedMap, gl, ledger, date, lines);
    ReportedEnumerates(gl, ledger, date, lines, positions, ConfirmedPositions(db, wanted, period.value));
    WideReadLosesNothing(db, gl, ledger, period.value, date, lines);
    EvaluationOnRows(db, gl, ledger, date, lines, breaches);
    return Ok(breaches);
  }

  /** Filtering the positions to the posting's accounts drops no breach. */
  lemma WideReadLosesNothing(db: Db, gl: Gl, ledger: seq<LedgerRow>, period: PeriodId, date: Date, lines: seq<PostingLine>)
    ensures BreachesAmong(gl, ledger, date, lines, ConfirmedPositions(db, AccountsOf(lines), period))
         == Breaches(db, gl, ledger, period, date, lines)
  {
    forall pos | pos in Positions(db) && pos.period == period && Exceeds(gl, ledger, date, lines, pos)
      ensures pos in ConfirmedPositions(db, AccountsOf(lines), period)
    {
      if pos.account !in AccountsOf(lines) {
        NoLineNoPending(gl, lines, pos.Key());
      }
    }
    assert forall pos | pos in ConfirmedPositions(db, AccountsOf(lines), period) :: pos in Positions(db) && pos.period == period;
  }

  /** The entry point: an empty posting is answered before the ledger is probed at all. */
  method EvaluatePosting(db: Db, gl: Gl, ledger: seq<LedgerRow>, date: Date, lines: seq<PostingLine>)
    returns (r: Result<seq<Breach>, ControlError>)
    ensures r == Err(AccountingUnwired) <==> lines != [] && !gl.wired
    ensures lines == [] || gl.wired ==> r.Ok? && IsEvaluation(db, gl, ledger, date, lines, r.value)
    ensures lines == [] || gl.wired ==> AnswersOnRows(db, gl, ledger, date, lines, r.value)
  {
    if lines == [] {
      assert forall pos: ControlPosition :: Pending(gl, lines, pos.Key()) == 0.0;
      assert forall p :: Breaches(db, gl, ledger, p, date, lines) == {};
      EvaluationOnRows(db, gl, ledger, date, lines, []);
      return Ok([]);
    }
    r := EvaluatePostingOn(db, gl, ledger, date, lines);
  }

  /** When no other period ties for narrowest, every answer of the evaluation lists the same breaches. */
  lemma EvaluationDecided(db: Db, gl: Gl, ledger: seq<LedgerRow>, date: Date, lines: seq<PostingLine>, p: PeriodId, breaches: seq<Breach>)
    requires NarrowestCovering(gl, date, p) && forall q | NarrowestCovering(gl, date, q) :: q == p
    requires IsEvaluation(db, gl, ledger, date, lines, breaches)
    ensures Enumerates(breaches, Breaches(db, gl, ledger, p, date, lines))
  {
  }

  // ── the achievement report ─────────────────────────────────────────────────

  function AchievedOn(db: Db, ledger: seq<LedgerRow>, l: LineId, through: Date): real
    requires l in db.lines
  {
    Achieved(ledger, ControlKey(db.lines[l].account, db.lines[l].costCenter), db.lines[l].period, through)
  }

  /** The report's row for one line, by direct sum. */
  function ReportRow(db: Db, ledger: seq<LedgerRow>, l: LineId, through: Date): AchievementRow
    requires l in db.lines
  {
    var line := db.lines[l];
    var achieved := AchievedOn(db, ledger, l, through);
    AchievementRow(line.budget, l, line.account, line.costCenter, line.period, line.planned, achieved,
                   line.planned - achieved, if line.planned != 0.0 then achieved / line.planned else 0.0)
  }

  /** A possible report: one row per live line of the budget, in line order. */
  ghost predicate IsReport(db: Db, ledger: seq<LedgerRow>, b: BudgetId, through: Date, rows: seq<AchievementRow>) {
    exists ids: seq<LineId> ::
      && IsLineOrder(db, b, ids)
      && |rows| == |ids|
      && forall i | 0 <= i < |ids| :: ids[i] in db.lines && rows[i] == ReportRow(db, ledger, ids[i], through)
  }

  /** A row of the report shows its own line, the line's movement in its period, and what is left and used of its plan. */
  ghost predicate ReportsItsLine(db: Db, ledger: seq<LedgerRow>, b: BudgetId, through: Date, row: AchievementRow) {
    && row.line in db.lines
    && var line := db.lines[row.line];
       && !line.deleted
       && row.budget == line.budget == b
       && row.account == line.account
       && row.costCenter == line.costCenter
       && row.period == line.period
       && row.planned == line.planned
       && row.achieved == Achieved(ledger, ControlKey(line.account, line.costCenter), line.period, through)
       && row.remaining == line.planned - row.achieved
       && (if row.planned == 0.0 then row.utilization == 0.0 else row.utilization * row.planned == row.achieved)
  }

  /** What a report must answer, told on the rows: one row for each live line of the budget, by period then account. */
  ghost predicate ReportOnRows(db: Db, ledger: seq<LedgerRow>, b: BudgetId, through: Date, rows: seq<AchievementRow>) {
    && (forall row | row in rows :: ReportsItsLine(db, ledger, b, through, row))
    && (forall l | l in db.lines && !db.lines[l].deleted && db.lines[l].budget == b :: exists row | row in rows :: row.line == l)
    && (forall i, j | 0 <= i < j < |rows| ::
          && rows[i].line != rows[j].line
          && (rows[i].period < rows[j].period || (rows[i].period == rows[j].period && rows[i].account <= rows[j].account)))
  }

  lemma RowShowsLine(db: Db, ledger: seq<LedgerRow>, l: LineId, b: BudgetId, through: Date)
    requires l in LiveLinesOf(db, b)
    ensures ReportsItsLine(db, ledger, b, through, ReportRow(db, ledger, l, through))
  {
  }

  lemma ReportShowsRows(db: Db, ledger: seq<LedgerRow>, b: BudgetId, through: Date, rows: seq<AchievementRow>)
    requires IsReport(db, ledger, b, through, rows)
    ensures ReportOnRows(db, ledger, b, through, rows)
  {
    var ids: seq<LineId> :| IsLineOrder(db, b, ids) && |rows| == |ids| &&
      forall i | 0 <= i < |ids| :: ids[i] in db.lines && rows[i] == ReportRow(db, ledger, ids[i], through);
    forall i | 0 <= i < |rows| ensures rows[i].line == ids[i] && ReportsItsLine(db, ledger, b, through, rows[i]) {
      assert ids[i] in ids;
      RowShowsLine(db, ledger, ids[i], b, through);
    }
    forall l | l in db.lines && !db.lines[l].deleted && db.lines[l].budget == b ensures exists row | row in rows :: row.line == l {
      assert l in LiveLinesOf(db, b) && l in ids;
      var i :| 0 <= i < |ids| && ids[i] == l;
      assert rows[i] in rows;
    }
    forall i, j | 0 <= i < j < |rows|
      ensures rows[i].line != rows[j].line
      ensures rows[i].period < rows[j].period || (rows[i].period == rows[j].period && rows[i].account <= rows[j].account)
    {
      assert NotAfter(db, ids[i], ids[j]);
      assert ReportsItsLine(db, ledger, b, through, rows[i]) && ReportsItsLine(db, ledger, b, through, rows[j]);
    }
  }

  /** The key of a group that has a period. */
  function LineKeyOfGroup(row: AchievedRow): LineKey {
    LineKey(row.account, row.costCenter, if row.period.Some? then row.period.value else 0)
  }

  lemma CollectedPerPeriodIsDirect(ledger: seq<LedgerRow>, accounts: set<AccountId>, periods: set<PeriodId>, through: Date,
                                   rows: seq<AchievedRow>, m: map<LineKey, real>, key: LineKey)
    requires Enumerates(rows, AchievedPerPeriod(ledger, accounts, periods, through))
    requires key.account in accounts && key.period in periods
    requires Collected(rows, LineKeyOfGroup, m)
    ensures GetOrZero(m, key) == Achieved(ledger, ControlKey(key.account, key.costCenter), key.period, through)
  {
    if key in m {
      var row :| row in rows && row.period.Some? && LineKeyOfGroup(row) == key && row.achieved == m[key];
      GroupIsDirectSum(ledger, accounts, periods, through, row);
    } else {
      NoGroupNoMovement(ledger, accounts, periods, through, ControlKey(key.account, key.costCenter), key.period);
    }
  }

  /** The report refines the direct sums, although it reads every account in every period of the budget. */
  method AchievementOn(db: Db, gl: Gl, ledger: seq<LedgerRow>, b: BudgetId, through: Date)
    returns (r: Result<seq<AchievementRow>, ControlError>)
    ensures !gl.wired ==> r == Err(AccountingUnwired)
    ensures gl.wired && (b !in db.budgets || db.budgets[b].deleted) ==> r == Err(Internal)
    ensures gl.wired && b in db.budgets && !db.budgets[b].deleted ==>
              r.Ok? && IsReport(db, ledger, b, through, r.value) && ReportOnRows(db, ledger, b, through, r.value)
  {
    if !gl.wired {
      return Err(AccountingUnwired);
    }
    if !LiveBudget(db, b) {
      return Err(Internal);
    }
    var ids := BudgetLines(db, b);
    assert forall i | 0 <= i < |ids| :: ids[i] in ids && ids[i] in LiveLinesOf(db, b);
    var accounts := set l | l in ids && l in db.lines :: db.lines[l].account;
    var periods := set l | l in ids && l in db.lines :: db.lines[l].period;
    var fetched := FetchAll(AchievedPerPeriod(ledger, accounts, periods, through));
    var achievedMap := AchievedByKey(fetched, LineKeyOfGroup);
    forall l | l in ids ensures l in db.lines && GetOrZero(achievedMap, KeyOf(db.lines[l])) == AchievedOn(db, ledger, l, through) {
      CollectedPerPeriodIsDirect(ledger, accounts, periods, through, fetched, achievedMap, KeyOf(db.lines[l]));
    }
    var rows := ReportRows(db, ids, achievedMap, ledger, through);
    ReportShowsRows(db, ledger, b, through, rows);
    return Ok(rows);
  }

  method ReportRows(db: Db, ids: seq<LineId>, achievedMap: map<LineKey, real>, ghost ledger: seq<LedgerRow>, ghost through: Date)
    returns (rows: seq<AchievementRow>)
    requires forall l | l in ids :: l in db.lines && GetOrZero(achievedMap, KeyOf(db.lines[l])) == AchievedOn(db, ledger, l, through)
    ensures |rows| == |ids|
    ensures forall i | 0 <= i < |ids| :: ids[i] in db.lines && rows[i] == ReportRow(db, ledger, ids[i], through)
  {
    rows := [];
    for i := 0 to |ids|
      invariant |rows| == i
      invariant forall j | 0 <= j < i :: ids[j] in db.lines && rows[j] == ReportRow(db, ledger, ids[j], through)
    {
      assert ids[i] in ids;
      var line := db.lines[ids[i]];
      var achieved := GetOrZero(achievedMap, KeyOf(line));
      var remaining := line.planned - achieved;
      var utilization := if line.planned != 0.0 then achieved / line.planned else 0.0;
      rows := rows + [AchievementRow(line.budget, ids[i], line.account, line.costCenter, line.period, line.planned,
                                     achieved, remaining, utilization)];
    }
  }

  /** A live line of a live budget, whatever its status, on exactly the account, cost center and period. */
  predicate OnKey(db: Db, key: LineKey, l: LineId) {
    && l in db.lines
    && !db.lines[l].deleted
    && db.lines[l].account == key.account
    && db.lines[l].costCenter == key.costCenter
    && db.lines[l].period == key.period
    && db.lines[l].budget in db.budgets
    && !db.budgets[db.lines[l].budget].deleted
  }

  /** The UI pre-check: any one live position on the key. */
  method CoveragePosition(db: Db, gl: Gl, key: LineKey) returns (r: Result<Option<ControlPosition>, ControlError>)
    ensures !gl.wired ==> r == Err(AccountingUnwired)
    ensures gl.wired ==> r.Ok?
    ensures gl.wired && r.value.None? ==> forall l :: !OnKey(db, key, l)
    ensures gl.wired && r.value.Some? ==>
              var pos := r.value.value;
              && OnKey(db, key, pos.line)
              && pos == PositionOf(db, pos.line)
              && pos.budget == db.lines[pos.line].budget
              && pos.account == key.account && pos.costCenter == key.costCenter && pos.period == key.period
              && pos.planned == db.lines[pos.line].planned
              && pos.enforcement == db.budgets[pos.budget].enforcement
  {
    if !gl.wired {
      return Err(AccountingUnwired);
    }
    var rows := FetchAll(Coverage(db, key));
    assert forall l | l in db.lines && KeyOf(db.lines[l]) == key && Joined(db, l) :: PositionOf(db, l) in Coverage(db, key);
    assert forall l | OnKey(db, key, l) :: KeyOf(db.lines[l]) == key && Joined(db, l);
    if rows == [] {
      return Ok(None);
    }
    assert rows[0] in Coverage(db, key);
    return Ok(Some(rows[0]));
  }
}
