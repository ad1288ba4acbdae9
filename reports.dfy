/**
 * server/routers/reports.ts: the financial statements computed from posted
 * journal lines. The profit and loss statement and the balance sheet apply
 * the debit/credit sign conventions per account; the cash-flow statement
 * classifies each cash movement by the other accounts of its transaction;
 * the trend charts group amounts by a period key and sort the groups.
 */
module Reports {
  import opened Common
  import opened Text
  import opened Enums
  import opened Database

  // ---------------------------------------------------------------------
  // Selecting journal lines
  // ---------------------------------------------------------------------

  /**
   * The `where` clause shared by the report queries: a posted line of the
   * company on one of `accountIds`, dated from `from` (when given) up to and
   * including `upTo`.
   */
  predicate InWindow(l: TransactionLine, companyId: Id, accountIds: set<Id>, from: Option<int>, upTo: int) {
    && l.companyId == companyId && l.accountId in accountIds && l.status == Posted
    && (from.Some? ==> l.transactionDate >= from.value)
    && l.transactionDate <= upTo
  }

  /** The journal lines the query returns: those in the window, in journal order, each once per occurrence. */
  function Window(journal: seq<TransactionLine>, companyId: Id, accountIds: set<Id>, from: Option<int>, upTo: int)
    : (r: seq<TransactionLine>)
    ensures forall l :: l in r <==> l in journal && InWindow(l, companyId, accountIds, from, upTo)
    ensures forall l :: multiset(r)[l] == if InWindow(l, companyId, accountIds, from, upTo) then multiset(journal)[l] else 0
  {
    Filter(journal, l => InWindow(l, companyId, accountIds, from, upTo))
  }

  /** The query keeps journal order: the window of a concatenation is the concatenation of the windows. */
  lemma WindowAppend(a: seq<TransactionLine>, b: seq<TransactionLine>, companyId: Id, accountIds: set<Id>,
                     from: Option<int>, upTo: int)
    ensures Window(a + b, companyId, accountIds, from, upTo)
            == Window(a, companyId, accountIds, from, upTo) + Window(b, companyId, accountIds, from, upTo)
  {
    FilterAppend(a, b, l => InWindow(l, companyId, accountIds, from, upTo));
  }

  /** Each line as an (account, amount) entry. */
  function Entries(lines: seq<TransactionLine>): (r: seq<(Id, real)>)
    ensures |r| == |lines|
    ensures forall i :: 0 <= i < |lines| ==> r[i] == (lines[i].accountId, lines[i].amount)
  {
    seq(|lines|, i requires 0 <= i < |lines| => (lines[i].accountId, lines[i].amount))
  }

  /** `lines.reduce((sum, line) => sum + Number(line.amount), 0)`. */
  function Amount(lines: seq<TransactionLine>): real {
    Total(Entries(lines))
  }

  lemma AmountAppend(a: seq<TransactionLine>, b: seq<TransactionLine>)
    ensures Amount(a + b) == Amount(a) + Amount(b)
  {
    assert Entries(a + b) == Entries(a) + Entries(b);
    TotalAppend(Entries(a), Entries(b));
  }

  /**
   * Splitting a date range at `middle`: the lines up to `upTo` are those
   * before `middle` and those from `middle` on.
   */
  lemma {:induction false} WindowSplit(journal: seq<TransactionLine>, companyId: Id, accountIds: set<Id>, middle: int, upTo: int)
    requires middle <= upTo + 1
    ensures Amount(Window(journal, companyId, accountIds, None, upTo))
            == Amount(Window(journal, companyId, accountIds, None, middle - 1))
               + Amount(Window(journal, companyId, accountIds, Some(middle), upTo))
  {
    if journal != [] {
      var head, rest := journal[0], journal[1..];
      assert journal == [head] + rest;
      WindowSplit(rest, companyId, accountIds, middle, upTo);
      SplitOne(head, rest, companyId, accountIds, None, upTo);
      SplitOne(head, rest, companyId, accountIds, None, middle - 1);
      SplitOne(head, rest, companyId, accountIds, Some(middle), upTo);
    }
  }

  /** The amount of a window over `[head] + rest`: the head's, if it is in the window, plus the rest's. */
  lemma SplitOne(head: TransactionLine, rest: seq<TransactionLine>, companyId: Id, accountIds: set<Id>,
                 from: Option<int>, upTo: int)
    ensures Amount(Window([head] + rest, companyId, accountIds, from, upTo))
            == (if InWindow(head, companyId, accountIds, from, upTo) then head.amount else 0.0)
               + Amount(Window(rest, companyId, accountIds, from, upTo))
  {
    WindowAppend([head], rest, companyId, accountIds, from, upTo);
    WindowSingleton(head, companyId, accountIds, from, upTo);
    AmountAppend(Window([head], companyId, accountIds, from, upTo), Window(rest, companyId, accountIds, from, upTo));
    AmountSingleton(head);
    assert Entries([]) == [];
  }

  lemma WindowSingleton(l: TransactionLine, companyId: Id, accountIds: set<Id>, from: Option<int>, upTo: int)
    ensures Window([l], companyId, accountIds, from, upTo) == if InWindow(l, companyId, accountIds, from, upTo) then [l] else []
  {
    FilterSingleton(l, l => InWindow(l, companyId, accountIds, from, upTo));
  }

  lemma AmountSingleton(l: TransactionLine)
    ensures Amount([l]) == l.amount
  {
    var e: seq<(Id, real)> := [(l.accountId, l.amount)];
    assert Entries([l]) == e;
    assert e[1..] == [];
    assert Total(e) == l.amount + Total(e[1..]);
  }

  /** `sum - amount` accumulates the negation of the sum; `sum + amount` the sum itself. */
  function Signed(x: real, negate: bool): real {
    if negate then -x else x
  }

  // ---------------------------------------------------------------------
  // Per-account sections (profit and loss, balance sheet)
  // ---------------------------------------------------------------------

  predicate OfType(row: AccountRow, companyId: Id, t: AccountType) {
    row.1.companyId == companyId && row.1.accountType == t && row.1.isActive
  }

  /** The active accounts of the company with the given type, in query order (by code), each once per occurrence. */
  function RowsOfType(rows: seq<AccountRow>, companyId: Id, t: AccountType): (r: seq<AccountRow>)
    ensures forall x :: x in r <==> x in rows && OfType(x, companyId, t)
    ensures forall x :: multiset(r)[x] == if OfType(x, companyId, t) then multiset(rows)[x] else 0
  {
    Filter(rows, row => OfType(row, companyId, t))
  }

  /** The query keeps the rows' order. */
  lemma RowsOfTypeAppend(a: seq<AccountRow>, b: seq<AccountRow>, companyId: Id, t: AccountType)
    ensures RowsOfType(a + b, companyId, t) == RowsOfType(a, companyId, t) + RowsOfType(b, companyId, t)
  {
    FilterAppend(a, b, row => OfType(row, companyId, t));
  }

  function IdSet(rows: seq<AccountRow>): set<Id> {
    set i | 0 <= i < |rows| :: rows[i].0
  }

  /** No account appears twice in a query result. */
  predicate UniqueIds(rows: seq<AccountRow>) {
    forall i, j :: 0 <= i < j < |rows| ==> rows[i].0 != rows[j].0
  }

  lemma {:induction false} RowsOfTypeUnique(rows: seq<AccountRow>, companyId: Id, t: AccountType)
    requires UniqueIds(rows)
    ensures UniqueIds(RowsOfType(rows, companyId, t))
  {
    if rows != [] {
      var head := rows[0];
      assert rows == [head] + rows[1..];
      RowsOfTypeUnique(rows[1..], companyId, t);
      RowsOfTypeAppend([head], rows[1..], companyId, t);
      FilterSingleton(head, row => OfType(row, companyId, t));
      var rest := RowsOfType(rows[1..], companyId, t);
      if OfType(head, companyId, t) {
        assert RowsOfType([head], companyId, t) == [head];
        forall x | x in rest ensures x.0 != head.0 {
          var k :| 0 <= k < |rows[1..]| && rows[1..][k] == x;
          assert rows[k + 1] == x;
        }
        ConsUnique(head, rest);
      } else {
        assert RowsOfType([head], companyId, t) == [];
      }
    }
  }

  /** Putting a row whose id is new in front of a duplicate-free result keeps it duplicate-free. */
  lemma ConsUnique(head: AccountRow, rest: seq<AccountRow>)
    requires UniqueIds(rest)
    requires forall x :: x in rest ==> x.0 != head.0
    ensures UniqueIds([head] + rest)
  {
    var r := [head] + rest;
    forall i, j | 0 <= i < j < |r| ensures r[i].0 != r[j].0 {
      assert r[j] == rest[j - 1];
      if i > 0 {
        assert r[i] == rest[i - 1];
      }
    }
  }

  datatype AccountAmount = AccountAmount(accountId: Id, accountCode: string, accountName: string, amount: real)

  /** One entry per account, its amount the signed sum of its lines. */
  function ByAccount(rows: seq<AccountRow>, entries: seq<(Id, real)>, negate: bool): (r: seq<AccountAmount>)
    ensures |r| == |rows|
    ensures forall i :: 0 <= i < |rows| ==>
              r[i] == AccountAmount(rows[i].0, rows[i].1.code, rows[i].1.name, Signed(KeyedSum(entries, rows[i].0), negate))
  {
    if rows == [] then []
    else
      [AccountAmount(rows[0].0, rows[0].1.code, rows[0].1.name, Signed(KeyedSum(entries, rows[0].0), negate))]
      + ByAccount(rows[1..], entries, negate)
  }

  function AmountsTotal(items: seq<AccountAmount>): real {
    if items == [] then 0.0 else items[0].amount + AmountsTotal(items[1..])
  }

  /** `accounts.filter((a) => a.amount !== 0)`: the non-zero entries, in order, each once per occurrence. */
  function NonZero(items: seq<AccountAmount>): (r: seq<AccountAmount>)
    ensures forall x :: x in r <==> x in items && x.amount != 0.0
    ensures forall x :: multiset(r)[x] == if x.amount != 0.0 then multiset(items)[x] else 0
  {
    Filter(items, (x: AccountAmount) => x.amount != 0.0)
  }

  /** Filtering keeps the listing's order. */
  lemma NonZeroAppend(a: seq<AccountAmount>, b: seq<AccountAmount>)
    ensures NonZero(a + b) == NonZero(a) + NonZero(b)
  {
    FilterAppend(a, b, (x: AccountAmount) => x.amount != 0.0);
  }

  /** Dropping the zero entries from the listing leaves its sum unchanged. */
  lemma {:induction false} NonZeroKeepsTotal(items: seq<AccountAmount>)
    ensures AmountsTotal(NonZero(items)) == AmountsTotal(items)
  {
    if items != [] {
      var head := items[0];
      assert items == [head] + items[1..];
      NonZeroKeepsTotal(items[1..]);
      NonZeroAppend([head], items[1..]);
      FilterSingleton(head, (x: AccountAmount) => x.amount != 0.0);
      var rest := NonZero(items[1..]);
      if head.amount != 0.0 {
        assert ([head] + rest)[1..] == rest;
      } else {
        assert NonZero(items) == rest;
      }
    }
  }

  /** The section total is the signed sum of the per-account groups. */
  lemma {:induction false} ByAccountTotal(rows: seq<AccountRow>, entries: seq<(Id, real)>, negate: bool)
    ensures AmountsTotal(ByAccount(rows, entries, negate)) == Signed(SumPerKey(entries, Keys(rows)), negate)
  {
    if rows != [] {
      assert Keys(rows)[1..] == Keys(rows[1..]);
      ByAccountTotal(rows[1..], entries, negate);
    }
  }

  datatype Section = Section(accounts: seq<AccountAmount>, total: real)

  /** One statement section over the accounts `rows` and the window `lines`. */
  function MakeSection(rows: seq<AccountRow>, lines: seq<TransactionLine>, negate: bool): (s: Section)
    ensures forall x :: x in s.accounts ==> x.amount != 0.0 && x in ByAccount(rows, Entries(lines), negate)
    ensures AmountsTotal(s.accounts) == s.total
    ensures forall x :: x in ByAccount(rows, Entries(lines), negate) && x.amount != 0.0 ==> x in s.accounts
  {
    var all := ByAccount(rows, Entries(lines), negate);
    NonZeroKeepsTotal(all);
    Section(NonZero(all), AmountsTotal(all))
  }

  /**
   * With the account rows unique and every line on one of them, the section
   * total is the signed sum of all its lines.
   */
  lemma SectionTotal(rows: seq<AccountRow>, lines: seq<TransactionLine>, negate: bool)
    requires UniqueIds(rows)
    requires forall l :: l in lines ==> l.accountId in IdSet(rows)
    ensures MakeSection(rows, lines, negate).total == Signed(Amount(lines), negate)
  {
    var entries := Entries(lines);
    ByAccountTotal(rows, entries, negate);
    forall i | 0 <= i < |entries| ensures entries[i].0 in Keys(rows) {
      assert lines[i] in lines;
      var k :| 0 <= k < |rows| && rows[k].0 == lines[i].accountId;
      assert Keys(rows)[k] == entries[i].0;
    }
    PartitionSum(entries, Keys(rows));
  }

  // ---------------------------------------------------------------------
  // profitAndLoss
  // ---------------------------------------------------------------------

  datatype ProfitAndLoss = ProfitAndLoss(revenue: Section, expenses: Section, netIncome: real)

  /** The lines of the period on the active accounts of one type. */
  function PeriodLines(rows: seq<AccountRow>, journal: seq<TransactionLine>, companyId: Id, t: AccountType,
                       startDate: int, endDate: int): seq<TransactionLine> {
    Window(journal, companyId, IdSet(RowsOfType(rows, companyId, t)), Some(startDate), endDate)
  }

  /**
   * `reports.profitAndLoss` over the account table in code order and the
   * journal: revenue accounts count credits (negative amounts) as positive,
   * expense accounts debits.
   */
  function ProfitAndLossReport(rows: seq<AccountRow>, journal: seq<TransactionLine>, companyId: Id,
                               startDate: int, endDate: int): (r: ProfitAndLoss)
    ensures r.revenue == MakeSection(RowsOfType(rows, companyId, Revenue),
                                     PeriodLines(rows, journal, companyId, Revenue, startDate, endDate), true)
    ensures r.expenses == MakeSection(RowsOfType(rows, companyId, Expense),
                                      PeriodLines(rows, journal, companyId, Expense, startDate, endDate), false)
    ensures r.netIncome == r.revenue.total - r.expenses.total
    ensures AmountsTotal(r.revenue.accounts) == r.revenue.total
    ensures AmountsTotal(r.expenses.accounts) == r.expenses.total
    ensures UniqueIds(rows) ==>
              r.revenue.total == -Amount(PeriodLines(rows, journal, companyId, Revenue, startDate, endDate))
              && r.expenses.total == Amount(PeriodLines(rows, journal, companyId, Expense, startDate, endDate))
  {
    var revenueRows := RowsOfType(rows, companyId, Revenue);
    var expenseRows := RowsOfType(rows, companyId, Expense);
    var revenue := MakeSection(revenueRows, PeriodLines(rows, journal, companyId, Revenue, startDate, endDate), true);
    var expenses := MakeSection(expenseRows, PeriodLines(rows, journal, companyId, Expense, startDate, endDate), false);
    assert UniqueIds(rows) ==>
             revenue.total == -Amount(PeriodLines(rows, journal, companyId, Revenue, startDate, endDate))
             && expenses.total == Amount(PeriodLines(rows, journal, companyId, Expense, startDate, endDate)) by {
      if UniqueIds(rows) {
        RowsOfTypeUnique(rows, companyId, Revenue);
        RowsOfTypeUnique(rows, companyId, Expense);
        SectionTotal(revenueRows, PeriodLines(rows, journal, companyId, Revenue, startDate, endDate), true);
        SectionTotal(expenseRows, PeriodLines(rows, journal, companyId, Expense, startDate, endDate), false);
      }
    }
    ProfitAndLoss(revenue, expenses, revenue.total - expenses.total)
  }

  // ---------------------------------------------------------------------
  // balanceSheet
  // ---------------------------------------------------------------------

  datatype BalanceSheet = BalanceSheet(assets: Section, liabilities: Section, equity: Section,
                                       totalLiabilitiesAndEquity: real, balanced: bool)

  function Abs(x: real): real {
    if x < 0.0 then -x else x
  }

  /** The lines up to the date on the active accounts of one type. */
  function LinesAsOf(rows: seq<AccountRow>, journal: seq<TransactionLine>, companyId: Id, t: AccountType,
                     asOfDate: int): seq<TransactionLine> {
    Window(journal, companyId, IdSet(RowsOfType(rows, companyId, t)), None, asOfDate)
  }

  /**
   * `reports.balanceSheet`: assets count debits as positive, liabilities
   * and equity credits; the sheet is balanced when assets and
   * liabilities plus equity differ by less than a cent.
   */
  function BalanceSheetReport(rows: seq<AccountRow>, journal: seq<TransactionLine>, companyId: Id, asOfDate: int)
    : (r: BalanceSheet)
    ensures r.assets == MakeSection(RowsOfType(rows, companyId, Asset),
                                    LinesAsOf(rows, journal, companyId, Asset, asOfDate), false)
    ensures r.liabilities == MakeSection(RowsOfType(rows, companyId, Liability),
                                         LinesAsOf(rows, journal, companyId, Liability, asOfDate), true)
    ensures r.equity == MakeSection(RowsOfType(rows, companyId, Equity),
                                    LinesAsOf(rows, journal, companyId, Equity, asOfDate), true)
    ensures r.totalLiabilitiesAndEquity == r.liabilities.total + r.equity.total
    ensures r.balanced <==> Abs(r.assets.total - r.totalLiabilitiesAndEquity) < 0.01
    ensures AmountsTotal(r.assets.accounts) == r.assets.total
    ensures AmountsTotal(r.liabilities.accounts) == r.liabilities.total
    ensures AmountsTotal(r.equity.accounts) == r.equity.total
    ensures UniqueIds(rows) ==>
              && r.assets.total == Amount(LinesAsOf(rows, journal, companyId, Asset, asOfDate))
              && r.liabilities.total == -Amount(LinesAsOf(rows, journal, companyId, Liability, asOfDate))
              && r.equity.total == -Amount(LinesAsOf(rows, journal, companyId, Equity, asOfDate))
  {
    var assets := MakeSection(RowsOfType(rows, companyId, Asset), LinesAsOf(rows, journal, companyId, Asset, asOfDate), false);
    var liabilities := MakeSection(RowsOfType(rows, companyId, Liability),
                                   LinesAsOf(rows, journal, companyId, Liability, asOfDate), true);
    var equity := MakeSection(RowsOfType(rows, companyId, Equity), LinesAsOf(rows, journal, companyId, Equity, asOfDate), true);
    var totalLE := liabilities.total + equity.total;
    assert UniqueIds(rows) ==>
             && assets.total == Amount(LinesAsOf(rows, journal, companyId, Asset, asOfDate))
             && liabilities.total == -Amount(LinesAsOf(rows, journal, companyId, Liability, asOfDate))
             && equity.total == -Amount(LinesAsOf(rows, journal, companyId, Equity, asOfDate)) by {
      if UniqueIds(rows) {
        RowsOfTypeUnique(rows, companyId, Asset);
        RowsOfTypeUnique(rows, companyId, Liability);
        RowsOfTypeUnique(rows, companyId, Equity);
        SectionTotal(RowsOfType(rows, companyId, Asset), LinesAsOf(rows, journal, companyId, Asset, asOfDate), false);
        SectionTotal(RowsOfType(rows, companyId, Liability), LinesAsOf(rows, journal, companyId, Liability, asOfDate), true);
        SectionTotal(RowsOfType(rows, companyId, Equity), LinesAsOf(rows, journal, companyId, Equity, asOfDate), true);
      }
    }
    BalanceSheet(assets, liabilities, equity, totalLE, Abs(assets.total - totalLE) < 0.01)
  }

  // ---------------------------------------------------------------------
  // cashFlow
  // ---------------------------------------------------------------------

  datatype Activity = Operating | Investing | Financing

  /** The classification rule one other account of a transaction triggers, if any. */
  function Rule(a: Account): Option<Activity> {
    if a.accountType == Revenue || a.accountType == Expense then Some(Operating)
    else if a.accountType == Asset && a.subType == Some("fixed_asset") then Some(Investing)
    else if a.accountType == Liability || a.accountType == Equity then Some(Financing)
    else None
  }

  /** The line at `k` triggers a rule and no later line does. */
  predicate LastRuleAt(others: seq<Account>, k: int) {
    0 <= k < |others| && Rule(others[k]).Some? && forall j :: k < j < |others| ==> Rule(others[j]).None?
  }

  /** The category of a cash movement, given the accounts of the other lines of its transaction. */
  function Classify(others: seq<Account>): Activity {
    if others == [] then Operating
    else
      match Rule(others[|others| - 1])
      case Some(activity) => activity
      case None => Classify(others[..|others| - 1])
  }

  /** The last account that triggers a rule decides the category; with none, it is operating. */
  lemma {:induction false} ClassifyLastMatch(others: seq<Account>)
    ensures (forall i :: 0 <= i < |others| ==> Rule(others[i]).None?) ==> Classify(others) == Operating
    ensures forall k :: LastRuleAt(others, k) ==> Classify(others) == Rule(others[k]).value
  {
    if others != [] {
      var prefix := others[..|others| - 1];
      ClassifyLastMatch(prefix);
      forall k | LastRuleAt(others, k) ensures Classify(others) == Rule(others[k]).value {
        if k < |others| - 1 {
          assert LastRuleAt(prefix, k);
        }
      }
    }
  }

  /** The `otherLines.forEach` loop that reassigns `category`. */
  method Categorize(others: seq<Account>) returns (category: Activity)
    ensures category == Classify(others)
  {
    category := Operating;
    for i := 0 to |others|
      invariant category == Classify(others[..i])
    {
      var a := others[i];
      if a.accountType == Revenue || a.accountType == Expense {
        category := Operating;
      } else if a.accountType == Asset && a.subType == Some("fixed_asset") {
        category := Investing;
      } else if a.accountType == Liability || a.accountType == Equity {
        category := Financing;
      }
      assert others[..i + 1][..i] == others[..i];
    }
    assert others[..|others|] == others;
  }

  /** Active accounts of the company that are bank accounts or have the "cash" sub-type. */
  function CashAccountIds(accounts: map<Id, Account>, companyId: Id): set<Id> {
    set id | id in accounts && accounts[id].companyId == companyId && accounts[id].isActive
                             && (accounts[id].isBankAccount || accounts[id].subType == Some("cash"))
  }

  /** A line of the transaction that is not on a cash account (`otherLines`). */
  predicate IsOtherLine(accounts: map<Id, Account>, cashIds: set<Id>, transactionId: Id, l: TransactionLine) {
    l.transactionId == transactionId && l.accountId !in cashIds && l.accountId in accounts
  }

  /** The accounts of the other lines of a transaction: its lines not on a cash account, in journal order. */
  function OtherAccounts(accounts: map<Id, Account>, journal: seq<TransactionLine>, cashIds: set<Id>, transactionId: Id)
    : (r: seq<Account>)
    ensures |r| <= |journal|
    ensures forall a :: a in r ==>
              exists i :: 0 <= i < |journal| && IsOtherLine(accounts, cashIds, transactionId, journal[i])
                          && accounts[journal[i].accountId] == a
    ensures forall i :: 0 <= i < |journal| && IsOtherLine(accounts, cashIds, transactionId, journal[i]) ==>
              accounts[journal[i].accountId] in r
  {
    if journal == [] then []
    else
      var n := |journal| - 1;
      var l := journal[n];
      var front := OtherAccounts(accounts, journal[..n], cashIds, transactionId);
      assert forall i :: 0 <= i < n ==> journal[..n][i] == journal[i];
      front + (if IsOtherLine(accounts, cashIds, transactionId, l) then [accounts[l.accountId]] else [])
  }

  function CategoryOf(accounts: map<Id, Account>, journal: seq<TransactionLine>, cashIds: set<Id>, movement: TransactionLine)
    : Activity
  {
    Classify(OtherAccounts(accounts, journal, cashIds, movement.transactionId))
  }

  datatype CashItem = CashItem(transactionId: Id, date: int, amount: real)

  function Item(movement: TransactionLine): CashItem {
    CashItem(movement.transactionId, movement.transactionDate, movement.amount)
  }

  /** The items of the movements in one category, in movement order. */
  function Bucket(accounts: map<Id, Account>, journal: seq<TransactionLine>, cashIds: set<Id>,
                  movements: seq<TransactionLine>, activity: Activity): seq<CashItem>
  {
    if movements == [] then []
    else
      var m := movements[|movements| - 1];
      Bucket(accounts, journal, cashIds, movements[..|movements| - 1], activity)
      + (if CategoryOf(accounts, journal, cashIds, m) == activity then [Item(m)] else [])
  }

  function ItemsTotal(items: seq<CashItem>): real {
    if items == [] then 0.0 else ItemsTotal(items[..|items| - 1]) + items[|items| - 1].amount
  }

  lemma ItemsTotalPush(items: seq<CashItem>, item: CashItem)
    ensures ItemsTotal(items + [item]) == ItemsTotal(items) + item.amount
  {
    assert (items + [item])[..|items|] == items;
  }

  lemma AmountPush(lines: seq<TransactionLine>, l: TransactionLine)
    ensures Amount(lines + [l]) == Amount(lines) + l.amount
  {
    AmountAppend(lines, [l]);
    var e := Entries([l]);
    assert e == [(l.accountId, l.amount)] && e[1..] == [];
    assert Total(e) == l.amount + Total(e[1..]);
    assert Amount([l]) == l.amount;
  }

  /** The bucket of one activity over the movements so far: the one new movement goes to its own activity. */
  lemma BucketPush(accounts: map<Id, Account>, journal: seq<TransactionLine>, cashIds: set<Id>,
                   movements: seq<TransactionLine>, m: TransactionLine, activity: Activity)
    ensures Bucket(accounts, journal, cashIds, movements + [m], activity)
            == Bucket(accounts, journal, cashIds, movements, activity)
               + (if CategoryOf(accounts, journal, cashIds, m) == activity then [Item(m)] else [])
  {
    assert (movements + [m])[..|movements|] == movements;
  }

  /**
   * Every movement lands in exactly one bucket: the bucket sizes add up to
   * the number of movements and the bucket totals to their net amount.
   */
  lemma {:induction false} BucketsPartition(accounts: map<Id, Account>, journal: seq<TransactionLine>, cashIds: set<Id>,
                                            movements: seq<TransactionLine>)
    ensures |Bucket(accounts, journal, cashIds, movements, Operating)|
            + |Bucket(accounts, journal, cashIds, movements, Investing)|
            + |Bucket(accounts, journal, cashIds, movements, Financing)| == |movements|
    ensures ItemsTotal(Bucket(accounts, journal, cashIds, movements, Operating))
            + ItemsTotal(Bucket(accounts, journal, cashIds, movements, Investing))
            + ItemsTotal(Bucket(accounts, journal, cashIds, movements, Financing)) == Amount(movements)
  {
    if movements != [] {
      var prefix := movements[..|movements| - 1];
      var m := movements[|movements| - 1];
      BucketsPartition(accounts, journal, cashIds, prefix);
      assert movements == prefix + [m];
      AmountPush(prefix, m);
      var o := Bucket(accounts, journal, cashIds, prefix, Operating);
      var v := Bucket(accounts, journal, cashIds, prefix, Investing);
      var f := Bucket(accounts, journal, cashIds, prefix, Financing);
      BucketPush(accounts, journal, cashIds, prefix, m, Operating);
      BucketPush(accounts, journal, cashIds, prefix, m, Investing);
      BucketPush(accounts, journal, cashIds, prefix, m, Financing);
      var c := CategoryOf(accounts, journal, cashIds, m);
      if c == Operating {
        ItemsTotalPush(o, Item(m));
        assert Bucket(accounts, journal, cashIds, movements, Operating) == o + [Item(m)];
        assert Bucket(accounts, journal, cashIds, movements, Investing) == v;
        assert Bucket(accounts, journal, cashIds, movements, Financing) == f;
      } else if c == Investing {
        ItemsTotalPush(v, Item(m));
        assert Bucket(accounts, journal, cashIds, movements, Operating) == o;
        assert Bucket(accounts, journal, cashIds, movements, Investing) == v + [Item(m)];
        assert Bucket(accounts, journal, cashIds, movements, Financing) == f;
      } else {
        ItemsTotalPush(f, Item(m));
        assert Bucket(accounts, journal, cashIds, movements, Operating) == o;
        assert Bucket(accounts, journal, cashIds, movements, Investing) == v;
        assert Bucket(accounts, journal, cashIds, movements, Financing) == f + [Item(m)];
      }
    }
  }

  datatype CashFlowReport = CashFlowReport(
    operating: seq<CashItem>, investing: seq<CashItem>, financing: seq<CashItem>,
    operatingTotal: real, investingTotal: real, financingTotal: real,
    netCashFlow: real, beginningBalance: real, endingBalance: real)

  /** The `cashMovements.forEach` loop: each movement's item is pushed onto the array of its category. */
  method SortMovements(accounts: map<Id, Account>, journal: seq<TransactionLine>, cashIds: set<Id>,
                       movements: seq<TransactionLine>)
    returns (operating: seq<CashItem>, investing: seq<CashItem>, financing: seq<CashItem>)
    ensures operating == Bucket(accounts, journal, cashIds, movements, Operating)
    ensures investing == Bucket(accounts, journal, cashIds, movements, Investing)
    ensures financing == Bucket(accounts, journal, cashIds, movements, Financing)
  {
    operating, investing, financing := [], [], [];
    for i := 0 to |movements|
      invariant operating == Bucket(accounts, journal, cashIds, movements[..i], Operating)
      invariant investing == Bucket(accounts, journal, cashIds, movements[..i], Investing)
      invariant financing == Bucket(accounts, journal, cashIds, movements[..i], Financing)
    {
      var movement := movements[i];
      var category := Categorize(OtherAccounts(accounts, journal, cashIds, movement.transactionId));
      var item := CashItem(movement.transactionId, movement.transactionDate, movement.amount);
      BucketSnoc(accounts, journal, cashIds, movements, i, Operating);
      BucketSnoc(accounts, journal, cashIds, movements, i, Investing);
      BucketSnoc(accounts, journal, cashIds, movements, i, Financing);
      if category == Operating {
        operating := operating + [item];
      } else if category == Investing {
        investing := investing + [item];
      } else {
        financing := financing + [item];
      }
    }
    assert movements[..|movements|] == movements;
  }

  /** One more movement lands at the end of its own category's bucket and nowhere else. */
  lemma BucketSnoc(accounts: map<Id, Account>, journal: seq<TransactionLine>, cashIds: set<Id>,
                   movements: seq<TransactionLine>, i: nat, activity: Activity)
    requires i < |movements|
    ensures Bucket(accounts, journal, cashIds, movements[..i + 1], activity)
              == Bucket(accounts, journal, cashIds, movements[..i], activity)
                 + (if CategoryOf(accounts, journal, cashIds, movements[i]) == activity then [Item(movements[i])] else [])
  {
    assert movements[..i + 1][..i] == movements[..i];
  }

  /**
   * `reports.cashFlow` over the account table and the journal: the posted
   * cash movements of the period sorted into the three activities, their
   * totals, and the cash balance before and after the period.
   */
  method CashFlow(accounts: map<Id, Account>, journal: seq<TransactionLine>, companyId: Id, startDate: int, endDate: int)
    returns (r: CashFlowReport)
    ensures var cashIds := CashAccountIds(accounts, companyId);
            var movements := Window(journal, companyId, cashIds, Some(startDate), endDate);
            && r.operating == Bucket(accounts, journal, cashIds, movements, Operating)
            && r.investing == Bucket(accounts, journal, cashIds, movements, Investing)
            && r.financing == Bucket(accounts, journal, cashIds, movements, Financing)
            && |r.operating| + |r.investing| + |r.financing| == |movements|
            && r.netCashFlow == Amount(movements)
            && r.beginningBalance == Amount(Window(journal, companyId, cashIds, None, startDate - 1))
            && (startDate <= endDate ==> r.endingBalance == Amount(Window(journal, companyId, cashIds, None, endDate)))
    ensures r.operatingTotal == ItemsTotal(r.operating) && r.investingTotal == ItemsTotal(r.investing)
            && r.financingTotal == ItemsTotal(r.financing)
    ensures r.netCashFlow == r.operatingTotal + r.investingTotal + r.financingTotal
    ensures r.endingBalance == r.beginningBalance + r.netCashFlow
  {
    var cashIds := CashAccountIds(accounts, companyId);
    var movements := Window(journal, companyId, cashIds, Some(startDate), endDate);
    var operating, investing, financing := SortMovements(accounts, journal, cashIds, movements);
    BucketsPartition(accounts, journal, cashIds, movements);
    var netCashFlow := ItemsTotal(operating) + ItemsTotal(investing) + ItemsTotal(financing);
    var beginningBalance := Amount(Window(journal, companyId, cashIds, None, startDate - 1));
    if startDate <= endDate {
      WindowSplit(journal, companyId, cashIds, startDate, endDate);
    }
    r := CashFlowReport(operating, investing, financing, ItemsTotal(operating), ItemsTotal(investing),
                        ItemsTotal(financing), netCashFlow, beginningBalance, beginningBalance + netCashFlow);
  }

  // ---------------------------------------------------------------------
  // revenueTrends / expenseTrends
  // ---------------------------------------------------------------------

  datatype Interval = Day | Week | Month | Quarter | Year

  /** A zero-based month as `getMonth()` returns it. */
  type Month0 = m: nat | m < 12

  /**
   * What the date functions of the runtime make of a timestamp in the
   * server's time zone: `getFullYear()`, `getMonth()`, and the ISO day
   * strings of the date and of the start of its week.
   */
  datatype LocalDate = LocalDate(year: int, month0: Month0, isoDate: string, isoWeekStart: string)

  /** `${year}-${String(month + 1).padStart(2, "0")}`. */
  function MonthKey(year: int, month0: Month0): string {
    IntToString(year) + "-" + PadStart(NatToString(month0 + 1), 2, '0')
  }

  /** The month key is the year, a dash and the 1-based month as exactly two digits. */
  lemma MonthKeyFormat(year: int, month0: Month0)
    ensures var y := IntToString(year); var k := MonthKey(year, month0);
            && |k| == |y| + 3 && k[..|y|] == y && k[|y|] == '-'
            && AllDigits(k[|y| + 1..]) && ParseDigits(k[|y| + 1..]) == month0 + 1
  {
    var digits := NatToString(month0 + 1);
    assert |digits| <= 2 by {
      if month0 + 1 >= 10 {
        assert NatToString(month0 + 1) == NatToString((month0 + 1) / 10) + [DigitChar((month0 + 1) % 10)];
      }
    }
    var y := IntToString(year);
    var k := MonthKey(year, month0);
    assert k[|y| + 1..] == PadStart(digits, 2, '0');
    ParseZeroPadded(digits, 2);
    ParseNatToString(month0 + 1);
  }

  /** `${year}-Q${Math.floor(month / 3) + 1}`. */
  function QuarterKey(year: int, month0: Month0): string {
    IntToString(year) + "-Q" + NatToString(month0 / 3 + 1)
  }

  /** The quarter key is the year, "-Q" and one digit from 1 to 4 naming the quarter of the month. */
  lemma QuarterKeyFormat(year: int, month0: Month0)
    ensures var y := IntToString(year); var k := QuarterKey(year, month0);
            && |k| == |y| + 3 && k[..|y|] == y && k[|y|..|y| + 2] == "-Q"
            && '1' <= k[|y| + 2] <= '4' && DigitValue(k[|y| + 2]) == month0 / 3 + 1
  {
  }

  /** `String(year)`. */
  function YearKey(year: int): string {
    IntToString(year)
  }

  /** For a year of the common era the key is its decimal numeral. */
  lemma YearKeyFormat(year: int)
    requires year >= 0
    ensures AllDigits(YearKey(year)) && ParseDigits(YearKey(year)) == year
  {
    ParseNatToString(year);
  }

  /** The `switch (input.interval)` choosing the grouping key of a line's date. */
  function PeriodKey(interval: Interval, date: LocalDate): string {
    match interval
    case Day => date.isoDate
    case Week => date.isoWeekStart
    case Month => MonthKey(date.year, date.month0)
    case Quarter => QuarterKey(date.year, date.month0)
    case Year => YearKey(date.year)
  }

  /** A line as its (period key, signed amount) entry. */
  function Entry(line: TransactionLine, interval: Interval, calendar: int -> LocalDate, negate: bool): (string, real) {
    (PeriodKey(interval, calendar(line.transactionDate)), Signed(line.amount, negate))
  }

  /** Each line as a (period key, signed amount) entry. */
  function TrendEntries(lines: seq<TransactionLine>, interval: Interval, calendar: int -> LocalDate, negate: bool)
    : (r: seq<(string, real)>)
    ensures |r| == |lines|
    ensures forall i :: 0 <= i < |lines| ==> r[i] == Entry(lines[i], interval, calendar, negate)
  {
    seq(|lines|, i requires 0 <= i < |lines| => Entry(lines[i], interval, calendar, negate))
  }

  /** `byPeriod[key] = (byPeriod[key] || 0) + amount`. */
  function AddEntry(byPeriod: map<string, real>, entry: (string, real)): map<string, real> {
    byPeriod[entry.0 := (if entry.0 in byPeriod then byPeriod[entry.0] else 0.0) + entry.1]
  }

  /** The entries' amounts summed per key, folding them in one after the other. */
  function Grouped(entries: seq<(string, real)>): map<string, real> {
    if entries == [] then map[]
    else AddEntry(Grouped(entries[..|entries| - 1]), entries[|entries| - 1])
  }

  /** Grouping keeps one entry per key that occurs, holding the sum of that key's amounts. */
  lemma {:induction false} GroupedSums(entries: seq<(string, real)>)
    ensures forall k :: k in Grouped(entries) <==> exists i :: 0 <= i < |entries| && entries[i].0 == k
    ensures forall k :: k in Grouped(entries) ==> Grouped(entries)[k] == KeyedSum(entries, k)
  {
    if entries != [] {
      var prefix := entries[..|entries| - 1];
      var last := entries[|entries| - 1];
      GroupedSums(prefix);
      assert entries == prefix + [last];
      forall k ensures KeyedSum(entries, k) == KeyedSum(prefix, k) + (if last.0 == k then last.1 else 0.0) {
        KeyedSumAppend(prefix, [last], k);
        assert [last][1..] == [];
      }
      forall k | (exists i :: 0 <= i < |entries| && entries[i].0 == k) ensures k in Grouped(entries) {
        var i :| 0 <= i < |entries| && entries[i].0 == k;
        if i < |prefix| {
          assert prefix[i].0 == k;
        }
      }
      forall k | k in Grouped(prefix) ensures exists i :: 0 <= i < |entries| && entries[i].0 == k {
        var i :| 0 <= i < |prefix| && prefix[i].0 == k;
        assert entries[i].0 == k;
      }
      forall k | k in Grouped(entries) && k !in Grouped(prefix) ensures KeyedSum(prefix, k) == 0.0 {
        KeyedSumAbsent(prefix, k);
      }
    }
  }

  lemma {:induction false} KeyedSumAbsent(entries: seq<(string, real)>, k: string)
    requires forall i :: 0 <= i < |entries| ==> entries[i].0 != k
    ensures KeyedSum(entries, k) == 0.0
  {
    if entries != [] {
      KeyedSumAbsent(entries[1..], k);
    }
  }

  /** The `lines.forEach` loop filling `byPeriod`. */
  method GroupByPeriod(lines: seq<TransactionLine>, interval: Interval, calendar: int -> LocalDate, negate: bool)
    returns (byPeriod: map<string, real>)
    ensures byPeriod == Grouped(TrendEntries(lines, interval, calendar, negate))
  {
    byPeriod := map[];
    for i := 0 to |lines|
      invariant byPeriod == Grouped(TrendEntries(lines[..i], interval, calendar, negate))
    {
      var entry := Entry(lines[i], interval, calendar, negate);
      TrendEntriesSnoc(lines, i, interval, calendar, negate);
      GroupedSnoc(TrendEntries(lines[..i], interval, calendar, negate), entry);
      byPeriod := AddEntry(byPeriod, entry);
    }
    assert lines[..|lines|] == lines;
  }

  /** One more line adds its entry at the end. */
  lemma TrendEntriesSnoc(lines: seq<TransactionLine>, i: nat, interval: Interval, calendar: int -> LocalDate, negate: bool)
    requires i < |lines|
    ensures TrendEntries(lines[..i + 1], interval, calendar, negate)
              == TrendEntries(lines[..i], interval, calendar, negate) + [Entry(lines[i], interval, calendar, negate)]
  {
  }

  /** Grouping one more entry adds its amount to its key's sum. */
  lemma GroupedSnoc(entries: seq<(string, real)>, entry: (string, real))
    ensures Grouped(entries + [entry]) == AddEntry(Grouped(entries), entry)
  {
    assert (entries + [entry])[..|entries|] == entries;
  }

  /** Strictly ascending by key, so no key appears twice. */
  predicate SortedByKey(trends: seq<(string, real)>) {
    forall i, j :: 0 <= i < j < |trends| ==> StrLess(trends[i].0, trends[j].0)
  }

  /** Inserting an entry with a new key at its place keeps the order. */
  method InsertByKey(trends: seq<(string, real)>, entry: (string, real)) returns (r: seq<(string, real)>)
    requires SortedByKey(trends)
    requires forall i :: 0 <= i < |trends| ==> trends[i].0 != entry.0
    ensures SortedByKey(r)
    ensures |r| == |trends| + 1
    ensures forall x :: x in r <==> x in trends || x == entry
  {
    var i := 0;
    while i < |trends| && StrLess(trends[i].0, entry.0)
      invariant 0 <= i <= |trends|
      invariant forall j :: 0 <= j < i ==> StrLess(trends[j].0, entry.0)
    {
      i := i + 1;
    }
    r := trends[..i] + [entry] + trends[i..];
    InsertAtPlace(trends, entry, i);
    assert trends == trends[..i] + trends[i..];
  }

  /** The place where the scan stops is where the entry belongs. */
  lemma InsertAtPlace(trends: seq<(string, real)>, entry: (string, real), i: nat)
    requires SortedByKey(trends)
    requires forall j :: 0 <= j < |trends| ==> trends[j].0 != entry.0
    requires i <= |trends|
    requires forall j :: 0 <= j < i ==> StrLess(trends[j].0, entry.0)
    requires i < |trends| ==> !StrLess(trends[i].0, entry.0)
    ensures SortedByKey(trends[..i] + [entry] + trends[i..])
  {
    var before, after := trends[..i], trends[i..];
    if i < |trends| {
      StrLessTotal(trends[i].0, entry.0);
      forall j | 0 <= j < |after| ensures StrLess(entry.0, after[j].0) {
        if j > 0 {
          StrLessTransitive(entry.0, trends[i].0, trends[i + j].0);
        }
      }
    }
    SortedAround(before, entry, after);
  }

  /** An entry above everything before it and below everything after it joins two sorted runs. */
  lemma SortedAround(before: seq<(string, real)>, entry: (string, real), after: seq<(string, real)>)
    requires SortedByKey(before) && SortedByKey(after)
    requires forall j :: 0 <= j < |before| ==> StrLess(before[j].0, entry.0)
    requires forall j :: 0 <= j < |after| ==> StrLess(entry.0, after[j].0)
    ensures SortedByKey(before + [entry] + after)
  {
    var r := before + [entry] + after;
    var n := |before|;
    forall j, k | 0 <= j < k < |r| ensures StrLess(r[j].0, r[k].0) {
      if k < n {
        assert r[j] == before[j] && r[k] == before[k];
      } else if j > n {
        assert r[j] == after[j - n - 1] && r[k] == after[k - n - 1];
      } else if j == n {
        assert r[k] == after[k - n - 1];
      } else if k == n {
        assert r[j] == before[j];
      } else {
        assert r[j] == before[j] && r[k] == after[k - n - 1];
        StrLessTransitive(before[j].0, entry.0, after[k - n - 1].0);
      }
    }
  }

  /** `Object.entries(byPeriod).sort((a, b) => a.period.localeCompare(b.period))`. */
  method SortByKey(byPeriod: map<string, real>) returns (trends: seq<(string, real)>)
    ensures SortedByKey(trends)
    ensures forall i :: 0 <= i < |trends| ==> trends[i].0 in byPeriod && trends[i].1 == byPeriod[trends[i].0]
    ensures forall k :: k in byPeriod ==> exists i :: 0 <= i < |trends| && trends[i].0 == k
  {
    trends := [];
    var remaining := byPeriod.Keys;
    while remaining != {}
      invariant remaining <= byPeriod.Keys
      invariant SortedByKey(trends)
      invariant forall i :: 0 <= i < |trends| ==> trends[i].0 in byPeriod.Keys - remaining && trends[i].1 == byPeriod[trends[i].0]
      invariant forall k :: k in byPeriod.Keys - remaining ==> exists i :: 0 <= i < |trends| && trends[i].0 == k
      decreases |remaining|
    {
      var k :| k in remaining;
      var before, done := trends, byPeriod.Keys - remaining;
      trends := InsertByKey(trends, (k, byPeriod[k]));
      remaining := remaining - {k};
      forall i | 0 <= i < |trends| ensures trends[i].0 in byPeriod.Keys - remaining && trends[i].1 == byPeriod[trends[i].0] {
        assert trends[i] in before || trends[i] == (k, byPeriod[k]);
      }
      forall key | key in byPeriod.Keys - remaining ensures exists i :: 0 <= i < |trends| && trends[i].0 == key {
        if key == k {
          assert (k, byPeriod[k]) in trends;
        } else {
          assert key in done;
          var i :| 0 <= i < |before| && before[i].0 == key;
          assert before[i] in trends;
        }
      }
    }
    assert byPeriod.Keys - remaining == byPeriod.Keys;
  }

  /** A list of groups, each holding the keyed sum of its key, adds up to the sum over its keys. */
  lemma {:induction false} GroupsTotal(entries: seq<(string, real)>, trends: seq<(string, real)>)
    requires forall i :: 0 <= i < |trends| ==> trends[i].1 == KeyedSum(entries, trends[i].0)
    ensures Total(trends) == SumPerKey(entries, Keys(trends))
  {
    if trends != [] {
      assert Keys(trends)[1..] == Keys(trends[1..]);
      GroupsTotal(entries, trends[1..]);
    }
  }

  lemma {:induction false} TrendEntriesTotal(lines: seq<TransactionLine>, interval: Interval, calendar: int -> LocalDate, negate: bool)
    ensures Total(TrendEntries(lines, interval, calendar, negate)) == Signed(Amount(lines), negate)
  {
    if lines != [] {
      assert TrendEntries(lines, interval, calendar, negate)[1..] == TrendEntries(lines[1..], interval, calendar, negate);
      assert Entries(lines)[1..] == Entries(lines[1..]);
      TrendEntriesTotal(lines[1..], interval, calendar, negate);
    }
  }

  datatype TrendKind = RevenueTrend | ExpenseTrend

  /** The active revenue (or expense) accounts of the company. */
  function TrendAccountIds(accounts: map<Id, Account>, companyId: Id, kind: TrendKind): set<Id> {
    set id | id in accounts && accounts[id].companyId == companyId && accounts[id].isActive
             && accounts[id].accountType == (if kind == RevenueTrend then Revenue else Expense)
  }

  /**
   * `reports.revenueTrends` and `reports.expenseTrends`: the posted lines of
   * the period on revenue (negated: credits count as revenue) or expense
   * accounts, summed per period key, one entry per key in ascending key
   * order; together the entries add up to the signed sum of all the lines.
   */
  method Trends(accounts: map<Id, Account>, journal: seq<TransactionLine>, companyId: Id, startDate: int, endDate: int,
                interval: Interval, calendar: int -> LocalDate, kind: TrendKind)
    returns (trends: seq<(string, real)>)
    ensures var lines := Window(journal, companyId, TrendAccountIds(accounts, companyId, kind), Some(startDate), endDate);
            var entries := TrendEntries(lines, interval, calendar, kind == RevenueTrend);
            && SortedByKey(trends)
            && GroupsOf(entries, trends)
            && Total(trends) == Signed(Amount(lines), kind == RevenueTrend)
  {
    var lines := Window(journal, companyId, TrendAccountIds(accounts, companyId, kind), Some(startDate), endDate);
    var negate := kind == RevenueTrend;
    var byPeriod := GroupByPeriod(lines, interval, calendar, negate);
    trends := SortByKey(byPeriod);
    SortedGroups(TrendEntries(lines, interval, calendar, negate), byPeriod, trends);
    TrendEntriesTotal(lines, interval, calendar, negate);
  }

  /**
   * Each listed group holds its key's sum, every key of the entries is listed
   * and every listed key occurs among the entries.
   */
  predicate GroupsOf(entries: seq<(string, real)>, trends: seq<(string, real)>) {
    && (forall i :: 0 <= i < |trends| ==> trends[i].1 == KeyedSum(entries, trends[i].0))
    && (forall i :: 0 <= i < |entries| ==> exists j :: 0 <= j < |trends| && trends[j].0 == entries[i].0)
    && (forall j :: 0 <= j < |trends| ==> exists i :: 0 <= i < |entries| && trends[j].0 == entries[i].0)
  }

  /**
   * The grouping listed in key order holds each key's sum, names exactly the
   * keys that occur, and adds up to the total of the entries.
   */
  lemma SortedGroups(entries: seq<(string, real)>, byPeriod: map<string, real>, trends: seq<(string, real)>)
    requires byPeriod == Grouped(entries)
    requires SortedByKey(trends)
    requires forall i :: 0 <= i < |trends| ==> trends[i].0 in byPeriod && trends[i].1 == byPeriod[trends[i].0]
    requires forall k :: k in byPeriod ==> exists i :: 0 <= i < |trends| && trends[i].0 == k
    ensures GroupsOf(entries, trends)
    ensures Total(trends) == Total(entries)
  {
    GroupedSums(entries);
    GroupsTotal(entries, trends);
    forall i, j | 0 <= i < j < |trends| ensures Keys(trends)[i] != Keys(trends)[j] {
      StrLessIrreflexive(trends[i].0);
    }
    forall i | 0 <= i < |entries| ensures entries[i].0 in Keys(trends) {
      assert entries[i].0 in byPeriod;
      var j :| 0 <= j < |trends| && trends[j].0 == entries[i].0;
      assert Keys(trends)[j] == entries[i].0;
    }
    PartitionSum(entries, Keys(trends));
  }

}
