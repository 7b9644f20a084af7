/** The entities of budget control: the two tables this module owns (budgets and
    budget lines) and the general-ledger tables it only reads.

    A table is a map from primary key to row, so a row does not repeat its id.
    Money is `real`: every amount the source handles is an exact decimal, and
    rounding happens in one place only, where a planned amount is stored. */
module BudgetTypes {

  datatype Option<+T> = None | Some(value: T)

  datatype Result<+T, +E> = Ok(value: T) | Err(error: E)

  type BudgetId = nat
  type LineId = nat
  type AccountId = nat
  type CostCenterId = nat
  type PeriodId = nat
  type Date = int

  // ── the module's own tables ────────────────────────────────────────────────

  datatype Status = Draft | Confirmed | Closed | Cancelled

  datatype Enforcement = Warn | Block

  datatype Budget = Budget(
    code: string,
    name: string,
    description: Option<string>,
    fiscalYear: int,
    dateFrom: Date,
    dateTo: Date,
    status: Status,
    enforcement: Enforcement,
    deleted: bool)

  datatype BudgetLine = BudgetLine(
    budget: BudgetId,
    account: AccountId,
    costCenter: Option<CostCenterId>,
    period: PeriodId,
    fiscalYear: int,
    fiscalMonth: Option<int>,
    planned: real,
    notes: Option<string>,
    deleted: bool)

  datatype Db = Db(budgets: map<BudgetId, Budget>, lines: map<LineId, BudgetLine>)

  /** The control key of a plan position. Two absent cost centers are the same
      cost center, as under SQL's IS NOT DISTINCT FROM. */
  datatype LineKey = LineKey(account: AccountId, costCenter: Option<CostCenterId>, period: PeriodId)

  /** The key inside one fiscal period. */
  datatype ControlKey = ControlKey(account: AccountId, costCenter: Option<CostCenterId>)

  function KeyOf(line: BudgetLine): LineKey {
    LineKey(line.account, line.costCenter, line.period)
  }

  predicate LiveBudget(db: Db, b: BudgetId) {
    b in db.budgets && !db.budgets[b].deleted
  }

  predicate LiveLine(db: Db, l: LineId) {
    l in db.lines && !db.lines[l].deleted
  }

  // ── the general ledger ─────────────────────────────────────────────────────

  datatype NormalBalance = DebitNormal | CreditNormal

  datatype Account = Account(isDetail: bool, isHeader: bool, active: bool, deleted: bool, normal: NormalBalance)

  datatype CostCenter = CostCenter(isGroup: bool, active: bool, deleted: bool)

  datatype Period = Period(start: Date, end: Date, fiscalYear: int, fiscalMonth: Option<int>, deleted: bool)

  /** The master data of the accounting schema; `wired` says whether the schema is there at all. */
  datatype Gl = Gl(
    wired: bool,
    accounts: map<AccountId, Account>,
    costCenters: map<CostCenterId, CostCenter>,
    periods: map<PeriodId, Period>)

  /** One committed ledger row, stamped with its account's orientation at post time. */
  datatype LedgerRow = LedgerRow(
    account: AccountId,
    costCenter: Option<CostCenterId>,
    period: Option<PeriodId>,
    date: Date,
    normal: NormalBalance,
    debit: real,
    credit: real,
    deleted: bool)
}
