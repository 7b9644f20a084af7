/** Laws of posting control: the shape of a posting does not matter, a committed
    posting is measured back exactly, the gate and the report agree, and no ledger
    row is counted twice. */
module ControlLaws {
  import opened BudgetTypes
  import opened BudgetReads
  import opened BudgetControl
  import opened Sums

  // ── posting-shape independence ─────────────────────────────────────────────

  lemma EqualPendingEqualBreaches(db: Db, gl: Gl, ledger: seq<LedgerRow>, period: PeriodId, date: Date,
                                  xs: seq<PostingLine>, ys: seq<PostingLine>)
    requires forall key :: Pending(gl, xs, key) == Pending(gl, ys, key)
    ensures Breaches(db, gl, ledger, period, date, xs) == Breaches(db, gl, ledger, period, date, ys)
  {
  }

  /** Any permutation of the lines gives the identical breaches. */
  lemma LineOrderIrrelevant(db: Db, gl: Gl, ledger: seq<LedgerRow>, period: PeriodId, date: Date,
                            xs: seq<PostingLine>, ys: seq<PostingLine>)
    requires multiset(xs) == multiset(ys)
    ensures Breaches(db, gl, ledger, period, date, xs) == Breaches(db, gl, ledger, period, date, ys)
  {
    forall key ensures Pending(gl, xs, key) == Pending(gl, ys, key) {
      SumPermuted(xs, ys, PendingTerm(gl, key));
    }
    EqualPendingEqualBreaches(db, gl, ledger, period, date, xs, ys);
  }

  /** Some lines amount to others: same accounts and cost centers, same net debit on each key. */
  ghost predicate SameNet(xs: seq<PostingLine>, ys: seq<PostingLine>, account: AccountId, costCenter: Option<CostCenterId>) {
    && (forall l | l in xs || l in ys :: l.account == account && l.costCenter == costCenter)
    && Sum(xs, (l: PostingLine) => l.debit - l.credit) == Sum(ys, (l: PostingLine) => l.debit - l.credit)
  }

  lemma {:induction false} PendingOfOneKey(gl: Gl, xs: seq<PostingLine>, key: ControlKey)
    requires forall l | l in xs :: l.account == key.account && l.costCenter == key.costCenter
    ensures key.account in gl.accounts ==>
              Pending(gl, xs, key) == (if gl.accounts[key.account].normal == DebitNormal
                                       then Sum(xs, (l: PostingLine) => l.debit - l.credit)
                                       else -Sum(xs, (l: PostingLine) => l.debit - l.credit))
    ensures key.account !in gl.accounts ==> Pending(gl, xs, key) == 0.0
  {
    if xs != [] {
      assert xs[0] in xs;
      PendingOfOneKey(gl, xs[1..], key);
    }
  }

  /** Splitting lines of one key into any number of lines with the same net, or merging them, changes nothing. */
  lemma SplitAndMergeIrrelevant(db: Db, gl: Gl, ledger: seq<LedgerRow>, period: PeriodId, date: Date,
                                before: seq<PostingLine>, xs: seq<PostingLine>, ys: seq<PostingLine>, after: seq<PostingLine>,
                                account: AccountId, costCenter: Option<CostCenterId>)
    requires SameNet(xs, ys, account, costCenter)
    ensures Breaches(db, gl, ledger, period, date, before + xs + after) == Breaches(db, gl, ledger, period, date, before + ys + after)
  {
    forall key ensures Pending(gl, before + xs + after, key) == Pending(gl, before + ys + after, key) {
      var f := PendingTerm(gl, key);
      SumAppend(before + xs, after, f);
      SumAppend(before, xs, f);
      SumAppend(before + ys, after, f);
      SumAppend(before, ys, f);
      if key == ControlKey(account, costCenter) {
        PendingOfOneKey(gl, xs, key);
        PendingOfOneKey(gl, ys, key);
      } else {
        SumZero(xs, f);
        SumZero(ys, f);
      }
    }
    EqualPendingEqualBreaches(db, gl, ledger, period, date, before + xs + after, before + ys + after);
  }

  /** Legs that reduce a key never add a breach on it, and a key they alone touch is never breached. */
  lemma ReducingLegsNeverBreach(gl: Gl, ledger: seq<LedgerRow>, date: Date, lines: seq<PostingLine>, legs: seq<PostingLine>,
                                pos: ControlPosition)
    requires Pending(gl, legs, pos.Key()) <= 0.0
    ensures Exceeds(gl, ledger, date, lines + legs, pos) ==> Exceeds(gl, ledger, date, lines, pos)
    ensures !Exceeds(gl, ledger, date, legs, pos)
  {
    SumAppend(lines, legs, PendingTerm(gl, pos.Key()));
  }

  // ── post, then measure ─────────────────────────────────────────────────────

  predicate AllKnown(gl: Gl, lines: seq<PostingLine>) {
    forall l | l in lines :: l.account in gl.accounts
  }

  /** The ledger row of a posted line: stamped with the posting's period, and with its account's orientation at post time. */
  function RowOf(gl: Gl, period: Option<PeriodId>, date: Date, l: PostingLine): LedgerRow
    requires l.account in gl.accounts
  {
    LedgerRow(l.account, l.costCenter, period, date, gl.accounts[l.account].normal, l.debit, l.credit, false)
  }

  function RowsOf(gl: Gl, period: Option<PeriodId>, date: Date, lines: seq<PostingLine>): seq<LedgerRow>
    requires AllKnown(gl, lines)
  {
    if lines == [] then [] else [RowOf(gl, period, date, lines[0])] + RowsOf(gl, period, date, lines[1..])
  }

  lemma {:induction false} RowsMovement(gl: Gl, period: Option<PeriodId>, date: Date, lines: seq<PostingLine>,
                                        key: ControlKey, q: PeriodId, through: Date)
    requires AllKnown(gl, lines)
    ensures Achieved(RowsOf(gl, period, date, lines), key, q, through)
         == (if period == Some(q) && date <= through then Pending(gl, lines, key) else 0.0)
  {
    if lines != [] {
      var rows := RowsOf(gl, period, date, lines);
      assert lines[0] in lines;
      assert rows[1..] == RowsOf(gl, period, date, lines[1..]);
      RowsMovement(gl, period, date, lines[1..], key, q, through);
    }
  }

  /** Conservation: committing a posting raises every exact key, from its date on and in its period,
      by exactly the pending it was evaluated with, and changes nothing before its date or elsewhere. */
  lemma PostThenMeasure(gl: Gl, ledger: seq<LedgerRow>, period: Option<PeriodId>, date: Date, lines: seq<PostingLine>,
                        key: ControlKey, q: PeriodId, through: Date)
    requires AllKnown(gl, lines)
    ensures Achieved(ledger + RowsOf(gl, period, date, lines), key, q, through)
         == Achieved(ledger, key, q, through) + (if period == Some(q) && date <= through then Pending(gl, lines, key) else 0.0)
  {
    RowsMovement(gl, period, date, lines, key, q, through);
    SumAppend(ledger, RowsOf(gl, period, date, lines), KeyTerm(key, q, through));
  }

  /** The same lines with debits and credits swapped. */
  function Reversal(lines: seq<PostingLine>): (r: seq<PostingLine>)
    ensures |r| == |lines|
    ensures forall l | l in r :: exists m | m in lines :: l.account == m.account
  {
    if lines == [] then [] else
      var l := lines[0];
      [PostingLine(l.account, l.credit, l.debit, l.costCenter)] + Reversal(lines[1..])
  }

  lemma {:induction false} ReversalNegates(gl: Gl, lines: seq<PostingLine>, key: ControlKey)
    ensures Pending(gl, Reversal(lines), key) == -Pending(gl, lines, key)
  {
    if lines != [] {
      assert Reversal(lines)[1..] == Reversal(lines[1..]);
      ReversalNegates(gl, lines[1..], key);
    }
  }

  /** Reversing a committed posting on its own date restores every achieved value, through every date. */
  lemma ReversalRestores(gl: Gl, ledger: seq<LedgerRow>, period: Option<PeriodId>, date: Date, lines: seq<PostingLine>,
                         key: ControlKey, q: PeriodId, through: Date)
    requires AllKnown(gl, lines)
    ensures AllKnown(gl, Reversal(lines))
    ensures Achieved(ledger + RowsOf(gl, period, date, lines) + RowsOf(gl, period, date, Reversal(lines)), key, q, through)
         == Achieved(ledger, key, q, through)
  {
    PostThenMeasure(gl, ledger, period, date, lines, key, q, through);
    PostThenMeasure(gl, ledger + RowsOf(gl, period, date, lines), period, date, Reversal(lines), key, q, through);
    ReversalNegates(gl, lines, key);
  }

  /** A posting together with its own reversal never breaches anything. */
  lemma PostingWithReversalNeverBreaches(db: Db, gl: Gl, ledger: seq<LedgerRow>, period: PeriodId, date: Date, lines: seq<PostingLine>)
    ensures Breaches(db, gl, ledger, period, date, lines + Reversal(lines)) == {}
  {
    forall pos: ControlPosition ensures !Exceeds(gl, ledger, date, lines + Reversal(lines), pos) {
      SumAppend(lines, Reversal(lines), PendingTerm(gl, pos.Key()));
      ReversalNegates(gl, lines, pos.Key());
    }
  }

  // ── the gate agrees with the report ────────────────────────────────────────

  /** For every row of every report of a confirmed budget: the posting breaches that line exactly when its
      positive pending is more than the row's remaining amount, and the breach shows the row's own amounts. */
  lemma GateAgreesWithReport(db: Db, gl: Gl, ledger: seq<LedgerRow>, date: Date, lines: seq<PostingLine>,
                             b: BudgetId, rows: seq<AchievementRow>, i: nat)
    requires IsConfirmed(db, b)
    requires IsReport(db, ledger, b, date, rows) && i < |rows|
    ensures var row := rows[i];
            var p := Pending(gl, lines, ControlKey(row.account, row.costCenter));
            var breaches := Breaches(db, gl, ledger, row.period, date, lines);
            && ((exists breach | breach in breaches :: breach.line == row.line) <==> p > 0.0 && p > row.remaining)
            && (forall breach | breach in breaches && breach.line == row.line ::
                  breach.achieved == row.achieved && breach.planned == row.planned && breach.pending == p)
  {
    var ids: seq<LineId> :| IsLineOrder(db, b, ids) && |rows| == |ids| &&
      forall i | 0 <= i < |ids| :: ids[i] in db.lines && rows[i] == ReportRow(db, ledger, ids[i], date);
    var l := ids[i];
    assert l in LiveLinesOf(db, b);
    var pos := PositionOf(db, l);
    assert pos in Positions(db);
    var breaches := Breaches(db, gl, ledger, pos.period, date, lines);
    if Exceeds(gl, ledger, date, lines, pos) {
      assert BreachOf(gl, ledger, date, lines, pos) in breaches;
    }
    forall breach | breach in breaches && breach.line == l
      ensures breach == BreachOf(gl, ledger, date, lines, pos) && Exceeds(gl, ledger, date, lines, pos)
    {
      BreachNamesItsLine(db, gl, ledger, pos.period, date, lines, breach);
    }
  }

  lemma BreachNamesItsLine(db: Db, gl: Gl, ledger: seq<LedgerRow>, period: PeriodId, date: Date, lines: seq<PostingLine>, breach: Breach)
    requires breach in Breaches(db, gl, ledger, period, date, lines)
    ensures Joined(db, breach.line)
    ensures var pos := PositionOf(db, breach.line);
            && pos in Positions(db)
            && pos.period == period
            && Exceeds(gl, ledger, date, lines, pos)
            && breach == BreachOf(gl, ledger, date, lines, pos)
  {
  }

  /** What a report's rows say of each other: the plan splits into achieved and remaining, every live line has
      exactly one row, and a positive plan is over-used exactly when nothing remains. */
  lemma ReportAddsUp(db: Db, ledger: seq<LedgerRow>, b: BudgetId, through: Date, rows: seq<AchievementRow>)
    requires IsReport(db, ledger, b, through, rows)
    ensures forall row | row in rows :: row.achieved + row.remaining == row.planned
    ensures forall row | row in rows && row.planned > 0.0 :: row.utilization > 1.0 <==> row.remaining < 0.0
    ensures forall l | l in LiveLinesOf(db, b) :: exists i | 0 <= i < |rows| :: rows[i].line == l
    ensures forall i, j | 0 <= i < j < |rows| :: rows[i].line != rows[j].line
  {
    var ids: seq<LineId> :| IsLineOrder(db, b, ids) && |rows| == |ids| &&
      forall i | 0 <= i < |ids| :: ids[i] in db.lines && rows[i] == ReportRow(db, ledger, ids[i], through);
    forall row | row in rows && row.planned > 0.0 ensures row.utilization > 1.0 <==> row.remaining < 0.0 {
      RatioAboveOne(row.achieved, row.planned);
    }
    forall l | l in LiveLinesOf(db, b) ensures exists i | 0 <= i < |rows| :: rows[i].line == l {
      var i :| 0 <= i < |ids| && ids[i] == l;
      assert rows[i].line == l;
    }
  }

  lemma RatioAboveOne(a: real, p: real)
    requires p > 0.0
    ensures a / p > 1.0 <==> a > p
  {
  }

  // ── no double counting ─────────────────────────────────────────────────────

  /** Group keys are unique, so building a map from the groups never overwrites an entry. */
  lemma GroupKeysUnique(ledger: seq<LedgerRow>, accounts: set<AccountId>, periods: set<PeriodId>, through: Date,
                        p: AchievedRow, q: AchievedRow)
    requires p in GroupedMovement(ledger, accounts, periods, through)
    requires q in GroupedMovement(ledger, accounts, periods, through)
    requires p.account == q.account && p.costCenter == q.costCenter && p.period == q.period
    ensures p == q
  {
    GroupIsDirectSum(ledger, accounts, periods, through, p);
    GroupIsDirectSum(ledger, accounts, periods, through, q);
  }

  function AccountValue(account: AccountId, period: PeriodId, through: Date, r: LedgerRow): real {
    if !r.deleted && r.account == account && r.period == Some(period) && r.date <= through then Movement(r) else 0.0
  }

  function AccountTerm(account: AccountId, period: PeriodId, through: Date): LedgerRow -> real {
    (r: LedgerRow) => AccountValue(account, period, through, r)
  }

  /** A group's share of an account in a period. */
  function ShareOf(account: AccountId, period: PeriodId): AchievedRow -> real {
    (g: AchievedRow) => if g.account == account && g.period == Some(period) then g.achieved else 0.0
  }

  predicate HasGroup(groups: seq<AchievedRow>, account: AccountId, costCenter: Option<CostCenterId>, period: PeriodId) {
    exists g | g in groups :: g.account == account && g.costCenter == costCenter && g.period == Some(period)
  }

  /** What one ledger row adds to the groups listed so far. */
  function CountedValue(groups: seq<AchievedRow>, account: AccountId, period: PeriodId, through: Date, r: LedgerRow): real {
    if HasGroup(groups, account, r.costCenter, period) then AccountValue(account, period, through, r) else 0.0
  }

  function CountedIn(groups: seq<AchievedRow>, account: AccountId, period: PeriodId, through: Date): LedgerRow -> real {
    (r: LedgerRow) => CountedValue(groups, account, period, through, r)
  }

  lemma {:induction false} SharesAddUp(ledger: seq<LedgerRow>, accounts: set<AccountId>, periods: set<PeriodId>, through: Date,
                                       groups: seq<AchievedRow>, account: AccountId, period: PeriodId)
    requires Distinct(groups)
    requires forall g | g in groups :: g in GroupedMovement(ledger, accounts, periods, through)
    ensures Sum(groups, ShareOf(account, period)) == Sum(ledger, CountedIn(groups, account, period, through))
  {
    if groups == [] {
      assert forall r :: !HasGroup(groups, account, r, period);
      SumZero(ledger, CountedIn(groups, account, period, through));
    } else {
      var g, rest := groups[0], groups[1..];
      assert g in groups && forall h | h in rest :: h in groups && h != g;
      SharesAddUp(ledger, accounts, periods, through, rest, account, period);
      GroupIsDirectSum(ledger, accounts, periods, through, g);
      if g.account == account && g.period == Some(period) {
        forall h | h in rest ensures !(h.account == account && h.costCenter == g.costCenter && h.period == Some(period)) {
          OtherGroupOtherKey(ledger, accounts, periods, through, g, h);
        }
        var term := KeyTerm(ControlKey(account, g.costCenter), period, through);
        forall r ensures CountedIn(groups, account, period, through)(r) == term(r) + CountedIn(rest, account, period, through)(r) {
          CountedOnce(groups, account, period, through, r);
        }
        SumOfTwo(ledger, term, CountedIn(rest, account, period, through), CountedIn(groups, account, period, through));
      } else {
        forall r ensures CountedIn(groups, account, period, through)(r) == CountedIn(rest, account, period, through)(r) {
          assert forall h | h in groups :: h == g || h in rest;
          assert HasGroup(groups, account, r.costCenter, period) <==> HasGroup(rest, account, r.costCenter, period);
        }
        SumCongruent(ledger, CountedIn(rest, account, period, through), CountedIn(groups, account, period, through));
      }
    }
  }

  lemma CountedOnce(groups: seq<AchievedRow>, account: AccountId, period: PeriodId, through: Date, r: LedgerRow)
    requires groups != [] && groups[0].account == account && groups[0].period == Some(period)
    requires forall h | h in groups[1..] :: !(h.account == account && h.costCenter == groups[0].costCenter && h.period == Some(period))
    ensures CountedIn(groups, account, period, through)(r)
         == KeyTerm(ControlKey(account, groups[0].costCenter), period, through)(r) + CountedIn(groups[1..], account, period, through)(r)
  {
  }

  lemma OtherGroupOtherKey(ledger: seq<LedgerRow>, accounts: set<AccountId>, periods: set<PeriodId>, through: Date,
                           g: AchievedRow, h: AchievedRow)
    requires g in GroupedMovement(ledger, accounts, periods, through)
    requires h in GroupedMovement(ledger, accounts, periods, through)
    requires g != h
    ensures !(g.account == h.account && g.costCenter == h.costCenter && g.period == h.period)
  {
    if g.account == h.account && g.costCenter == h.costCenter && g.period == h.period {
      GroupKeysUnique(ledger, accounts, periods, through, g, h);
    }
  }

  /** Every eligible ledger row falls in exactly one group of either query, the report's over many periods and the
      control query over one: over all cost centers, the absent one included, an account's groups of a period sum to
      its movement in that period. */
  lemma NoDoubleCounting(ledger: seq<LedgerRow>, accounts: set<AccountId>, periods: set<PeriodId>, through: Date,
                         groups: seq<AchievedRow>, account: AccountId, period: PeriodId)
    requires Enumerates(groups, AchievedPerPeriod(ledger, accounts, periods, through))
          || (periods == {period} && Enumerates(groups, AchievedOnKeys(ledger, accounts, period, through)))
    requires account in accounts && period in periods
    ensures Sum(groups, ShareOf(account, period)) == Sum(ledger, AccountTerm(account, period, through))
    ensures forall g | g in groups :: g.period.Some? && g.period.value in periods
  {
    SharesAddUp(ledger, accounts, periods, through, groups, account, period);
    forall r | r in ledger
      ensures CountedIn(groups, account, period, through)(r) == AccountTerm(account, period, through)(r)
    {
      if Selects(accounts, periods, through, r) && r.account == account && r.period == Some(period) {
        var g := AchievedRow(r.account, r.costCenter, r.period, Sum(ledger, GroupTerm(accounts, periods, through, r)));
        assert g in GroupedMovement(ledger, accounts, periods, through);
        assert g in groups;
      }
    }
    SumCongruent(ledger, CountedIn(groups, account, period, through), AccountTerm(account, period, through));
  }
}
