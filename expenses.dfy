/**
 * server/routers/expenses.ts: the expense approval workflow. Expenses are
 * created and edited freely until approved or paid; only owners and admins
 * approve or reject them.
 */
module Expenses {
  import opened Common
  import opened Text
  import opened Enums
  import opened Database

  /** The `findFirst({ where: { id, companyId } })` guard. */
  predicate Owned(expenses: map<Id, ExpenseRecord>, id: Id, companyId: Id) {
    id in expenses && expenses[id].companyId == companyId
  }

  /** Approved and paid expenses can be neither edited nor deleted. */
  predicate Locked(e: ExpenseRecord) {
    e.status == Approved || e.status == ExpensePaid
  }

  // ---------------------------------------------------------------------
  // create
  // ---------------------------------------------------------------------

  datatype CreateExpenseInput = CreateExpenseInput(
    expenseDate: int, amount: real, description: string, merchant: Option<string>,
    category: Option<string>, paymentMethod: Option<ExpensePaymentMethod>, contactId: Option<Id>,
    taxAmount: Option<real>, isTaxDeductible: Option<bool>, receiptUrl: Option<string>, notes: Option<string>)

  /** The create schema: a positive amount, a description, and a non-negative tax amount when given. */
  predicate ValidCreate(input: CreateExpenseInput) {
    input.amount > 0.0 && input.description != "" && (input.taxAmount.Some? ==> input.taxAmount.value >= 0.0)
  }

  /** The row `create` stores: tax defaults to 0, deductibility to true, the status to draft. */
  function NewExpense(companyId: Id, input: CreateExpenseInput, currency: string, userId: Id): (e: ExpenseRecord)
    requires ValidCreate(input)
    ensures e.amount > 0.0 && e.taxAmount >= 0.0 && e.status == ExpenseDraft && !Locked(e)
    ensures e.taxAmount == (if input.taxAmount.Some? then input.taxAmount.value else 0.0)
    ensures e.approvedBy.None? && e.rejectedBy.None? && e.rejectReason.None?
  {
    ExpenseRecord(companyId, input.expenseDate, input.amount, input.description, input.merchant, input.category,
            input.paymentMethod, input.contactId, input.taxAmount.GetOr(0.0), input.isTaxDeductible.GetOr(true),
            input.receiptUrl, input.notes, currency, userId, ExpenseDraft, None, None, None, None, None)
  }

  /** `expenses.create`. */
  method Create(db: Db, caller: Caller, input: CreateExpenseInput, newId: Id) returns (r: Result<ExpenseRecord>)
    requires caller.companyId in db.companies && newId !in db.expenses
    modifies db`expenses
    ensures !ValidCreate(input) ==> r == Err(BadRequest) && db.expenses == old(db.expenses)
    ensures ValidCreate(input) ==>
              var e := NewExpense(caller.companyId, input, db.companies[caller.companyId].currency, caller.userId);
              r == Ok(e) && db.expenses == old(db.expenses)[newId := e]
  {
    if !ValidCreate(input) {
      return Err(BadRequest);
    }
    var e := NewExpense(caller.companyId, input, db.companies[caller.companyId].currency, caller.userId);
    db.expenses := db.expenses[newId := e];
    r := Ok(e);
  }

  // ---------------------------------------------------------------------
  // update
  // ---------------------------------------------------------------------

  datatype UpdateExpenseInput = UpdateExpenseInput(
    id: Id, expenseDate: Option<int>, amount: Option<real>, description: Option<string>,
    merchant: Option<string>, category: Option<string>, paymentMethod: Option<ExpensePaymentMethod>,
    contactId: Option<Id>, taxAmount: Option<real>, isTaxDeductible: Option<bool>,
    receiptUrl: Option<string>, notes: Option<string>)

  predicate ValidUpdate(input: UpdateExpenseInput) {
    && (input.amount.Some? ==> input.amount.value > 0.0)
    && (input.description.Some? ==> input.description.value != "")
    && (input.taxAmount.Some? ==> input.taxAmount.value >= 0.0)
  }

  /** Prisma's update with the supplied fields; absent fields keep their stored values. */
  function ApplyUpdate(e: ExpenseRecord, input: UpdateExpenseInput): (r: ExpenseRecord)
    ensures r.status == e.status && r.approvedAt == e.approvedAt && r.approvedBy == e.approvedBy
    ensures r.rejectedAt == e.rejectedAt && r.rejectedBy == e.rejectedBy && r.rejectReason == e.rejectReason
    ensures r.companyId == e.companyId && r.createdBy == e.createdBy && r.currency == e.currency
    ensures r.amount == Overwrite(e.amount, input.amount) && r.taxAmount == Overwrite(e.taxAmount, input.taxAmount)
    ensures r.description == Overwrite(e.description, input.description)
    ensures r.expenseDate == Overwrite(e.expenseDate, input.expenseDate)
    ensures r.merchant == (if input.merchant.Some? then input.merchant else e.merchant)
    ensures r.category == (if input.category.Some? then input.category else e.category)
    ensures r.paymentMethod == (if input.paymentMethod.Some? then input.paymentMethod else e.paymentMethod)
    ensures r.contactId == (if input.contactId.Some? then input.contactId else e.contactId)
    ensures r.isTaxDeductible == Overwrite(e.isTaxDeductible, input.isTaxDeductible)
    ensures r.receiptUrl == (if input.receiptUrl.Some? then input.receiptUrl else e.receiptUrl)
    ensures r.notes == (if input.notes.Some? then input.notes else e.notes)
    ensures ValidUpdate(input) && e.amount > 0.0 ==> r.amount > 0.0
  {
    e.(expenseDate := Overwrite(e.expenseDate, input.expenseDate),
       amount := Overwrite(e.amount, input.amount),
       description := Overwrite(e.description, input.description),
       merchant := if input.merchant.Some? then input.merchant else e.merchant,
       category := if input.category.Some? then input.category else e.category,
       paymentMethod := if input.paymentMethod.Some? then input.paymentMethod else e.paymentMethod,
       contactId := if input.contactId.Some? then input.contactId else e.contactId,
       taxAmount := Overwrite(e.taxAmount, input.taxAmount),
       isTaxDeductible := Overwrite(e.isTaxDeductible, input.isTaxDeductible),
       receiptUrl := if input.receiptUrl.Some? then input.receiptUrl else e.receiptUrl,
       notes := if input.notes.Some? then input.notes else e.notes)
  }

  /** An update with no fields changes nothing. */
  lemma EmptyUpdateChangesNothing(e: ExpenseRecord, id: Id)
    ensures ApplyUpdate(e, UpdateExpenseInput(id, None, None, None, None, None, None, None, None, None, None, None)) == e
  {
  }

  /** `expenses.update`: refused for approved and paid expenses. */
  method Update(db: Db, caller: Caller, input: UpdateExpenseInput) returns (r: Result<ExpenseRecord>)
    modifies db`expenses
    ensures !ValidUpdate(input) ==> r == Err(BadRequest) && db.expenses == old(db.expenses)
    ensures ValidUpdate(input) && !Owned(old(db.expenses), input.id, caller.companyId) ==>
              r == Err(NotFound) && db.expenses == old(db.expenses)
    ensures ValidUpdate(input) && Owned(old(db.expenses), input.id, caller.companyId) ==>
              (r == Err(Forbidden) <==> Locked(old(db.expenses)[input.id]))
    ensures r.Err? ==> db.expenses == old(db.expenses)
    ensures r.Ok? ==> Owned(old(db.expenses), input.id, caller.companyId) && !Locked(old(db.expenses)[input.id])
                      && r.value == ApplyUpdate(old(db.expenses)[input.id], input)
                      && db.expenses == old(db.expenses)[input.id := r.value]
    ensures (ValidUpdate(input) && Owned(old(db.expenses), input.id, caller.companyId)
             && !Locked(old(db.expenses)[input.id])) ==> r.Ok?
  {
    if !ValidUpdate(input) {
      return Err(BadRequest);
    }
    if !Owned(db.expenses, input.id, caller.companyId) {
      return Err(NotFound);
    }
    var e := db.expenses[input.id];
    if e.status == Approved || e.status == ExpensePaid {
      return Err(Forbidden);
    }
    var updated := ApplyUpdate(e, input);
    db.expenses := db.expenses[input.id := updated];
    r := Ok(updated);
  }

  // ---------------------------------------------------------------------
  // delete
  // ---------------------------------------------------------------------

  /** `expenses.delete`: refused for approved and paid expenses, otherwise the row is removed. */
  method Delete(db: Db, caller: Caller, id: Id) returns (r: Result<()>)
    modifies db`expenses
    ensures !Owned(old(db.expenses), id, caller.companyId) ==> r == Err(NotFound) && db.expenses == old(db.expenses)
    ensures Owned(old(db.expenses), id, caller.companyId) ==>
              if Locked(old(db.expenses)[id]) then r == Err(Forbidden) && db.expenses == old(db.expenses)
              else r == Ok(()) && db.expenses == old(db.expenses) - {id}
  {
    if !Owned(db.expenses, id, caller.companyId) {
      return Err(NotFound);
    }
    var e := db.expenses[id];
    if e.status == Approved || e.status == ExpensePaid {
      return Err(Forbidden);
    }
    db.expenses := db.expenses - {id};
    r := Ok(());
  }

  // ---------------------------------------------------------------------
  // approve / reject
  // ---------------------------------------------------------------------

  /** The approval update: whatever the prior status, the expense becomes approved by the caller. */
  function Approve(e: ExpenseRecord, userId: Id, now: int): (r: ExpenseRecord)
    ensures r.status == Approved && r.approvedBy == Some(userId) && r.approvedAt == Some(now) && Locked(r)
    ensures r.(status := e.status, approvedBy := e.approvedBy, approvedAt := e.approvedAt) == e
  {
    e.(status := Approved, approvedAt := Some(now), approvedBy := Some(userId))
  }

  /** The rejection update: the expense becomes rejected by the caller, with the reason. */
  function Reject(e: ExpenseRecord, userId: Id, reason: string, now: int): (r: ExpenseRecord)
    ensures r.status == Rejected && r.rejectedBy == Some(userId) && r.rejectReason == Some(reason) && !Locked(r)
    ensures r.(status := e.status, rejectedBy := e.rejectedBy, rejectedAt := e.rejectedAt, rejectReason := e.rejectReason) == e
  {
    e.(status := Rejected, rejectedAt := Some(now), rejectedBy := Some(userId), rejectReason := Some(reason))
  }

  /** A rejected expense can be edited again; an approved one cannot until it is rejected. */
  lemma RejectionUnlocks(e: ExpenseRecord, userId: Id, reason: string, t1: int, t2: int)
    ensures Locked(Approve(e, userId, t1))
    ensures !Locked(Reject(Approve(e, userId, t1), userId, reason, t2))
  {
  }

  /** `expenses.approve`: owners and admins only. */
  method ApproveExpense(db: Db, caller: Caller, id: Id, now: int) returns (r: Result<ExpenseRecord>)
    modifies db`expenses
    ensures !IsOwnerOrAdmin(caller.role) ==> r == Err(Forbidden) && db.expenses == old(db.expenses)
    ensures IsOwnerOrAdmin(caller.role) && !Owned(old(db.expenses), id, caller.companyId) ==>
              r == Err(NotFound) && db.expenses == old(db.expenses)
    ensures IsOwnerOrAdmin(caller.role) && Owned(old(db.expenses), id, caller.companyId) ==>
              var approved := Approve(old(db.expenses)[id], caller.userId, now);
              r == Ok(approved) && db.expenses == old(db.expenses)[id := approved]
  {
    if !(caller.role == "owner" || caller.role == "admin") {
      return Err(Forbidden);
    }
    if !Owned(db.expenses, id, caller.companyId) {
      return Err(NotFound);
    }
    var approved := Approve(db.expenses[id], caller.userId, now);
    db.expenses := db.expenses[id := approved];
    r := Ok(approved);
  }

  /** `expenses.reject`: a non-empty reason, then owners and admins only. */
  method RejectExpense(db: Db, caller: Caller, id: Id, reason: string, now: int) returns (r: Result<ExpenseRecord>)
    modifies db`expenses
    ensures reason == "" ==> r == Err(BadRequest) && db.expenses == old(db.expenses)
    ensures reason != "" && !IsOwnerOrAdmin(caller.role) ==> r == Err(Forbidden) && db.expenses == old(db.expenses)
    ensures reason != "" && IsOwnerOrAdmin(caller.role) && !Owned(old(db.expenses), id, caller.companyId) ==>
              r == Err(NotFound) && db.expenses == old(db.expenses)
    ensures reason != "" && IsOwnerOrAdmin(caller.role) && Owned(old(db.expenses), id, caller.companyId) ==>
              var rejected := Reject(old(db.expenses)[id], caller.userId, reason, now);
              r == Ok(rejected) && db.expenses == old(db.expenses)[id := rejected]
  {
    if reason == "" {
      return Err(BadRequest);
    }
    if !(caller.role == "owner" || caller.role == "admin") {
      return Err(Forbidden);
    }
    if !Owned(db.expenses, id, caller.companyId) {
      return Err(NotFound);
    }
    var rejected := Reject(db.expenses[id], caller.userId, reason, now);
    db.expenses := db.expenses[id := rejected];
    r := Ok(rejected);
  }

  // ---------------------------------------------------------------------
  // list
  // ---------------------------------------------------------------------

  /** The status filter of `list`: one status, or "all" (the default). */
  datatype StatusFilter = AllStatuses | OnlyStatus(status: ExpenseStatus)

  datatype ListExpensesInput = ListExpensesInput(
    category: Option<string>, search: Option<string>, status: StatusFilter, limit: int, offset: int)

  /** Whether an optional text column contains the search text, ignoring case. */
  predicate ColumnContains(column: Option<string>, search: string) {
    column.Some? && ContainsIgnoreCase(column.value, search)
  }

  /** The `where` clause of `list`. */
  predicate MatchesFilter(e: ExpenseRecord, companyId: Id, input: ListExpensesInput) {
    && e.companyId == companyId
    && (input.status.OnlyStatus? ==> e.status == input.status.status)
    && (input.category.Some? && input.category.value != "" ==> e.category == input.category)
    && (input.search.Some? && input.search.value != "" ==>
          ContainsIgnoreCase(e.description, input.search.value) || ColumnContains(e.merchant, input.search.value)
          || ColumnContains(e.notes, input.search.value))
  }

  /** The rows matching the filter, in the order of the query, each once per occurrence. */
  function Filtered(rows: seq<ExpenseRecord>, companyId: Id, input: ListExpensesInput): (r: seq<ExpenseRecord>)
    ensures forall e :: e in r <==> e in rows && MatchesFilter(e, companyId, input)
    ensures forall e :: multiset(r)[e] == if MatchesFilter(e, companyId, input) then multiset(rows)[e] else 0
  {
    Filter(rows, e => MatchesFilter(e, companyId, input))
  }

  datatype ListResult = ListResult(expenses: seq<ExpenseRecord>, total: nat, hasMore: bool)

  /**
   * `expenses.list` over the company's expenses in date order: the page at
   * `offset` of at most `limit` matching rows, their total count, and
   * whether rows remain after the page.
   */
  function List(rows: seq<ExpenseRecord>, companyId: Id, input: ListExpensesInput): (r: Result<ListResult>)
    ensures r.Err? <==> !(1 <= input.limit <= 100 && input.offset >= 0)
    ensures r.Ok? ==> r.value.total == |Filtered(rows, companyId, input)| && |r.value.expenses| <= input.limit
    ensures r.Ok? ==> r.value.expenses == Page(Filtered(rows, companyId, input), input.offset, input.limit)
    ensures r.Ok? ==> forall i :: 0 <= i < |r.value.expenses| ==> MatchesFilter(r.value.expenses[i], companyId, input)
    ensures r.Ok? ==> (r.value.hasMore <==> input.offset + input.limit < r.value.total)
  {
    if !(1 <= input.limit <= 100 && input.offset >= 0) then Err(BadRequest)
    else
      var matching := Filtered(rows, companyId, input);
      var page := Page(matching, input.offset, input.limit);
      PageHasMore(matching, input.offset, input.limit);
      Ok(ListResult(page, |matching|, HasMore(input.offset, |page|, |matching|)))
  }

  /** With "all", no category and no search, every expense of the company is counted. */
  lemma AllMeansNoStatusFilter(rows: seq<ExpenseRecord>, companyId: Id, limit: int, offset: int)
    requires 1 <= limit <= 100 && offset >= 0
    requires forall i :: 0 <= i < |rows| ==> rows[i].companyId == companyId
    ensures List(rows, companyId, ListExpensesInput(None, None, AllStatuses, limit, offset)).value.total == |rows|
  {
    var input := ListExpensesInput(None, None, AllStatuses, limit, offset);
    FilterKeepsAll(rows, companyId, input);
  }

  /** When every row matches, the filter keeps them all, in order. */
  lemma FilterKeepsAll(rows: seq<ExpenseRecord>, companyId: Id, input: ListExpensesInput)
    requires forall i :: 0 <= i < |rows| ==> MatchesFilter(rows[i], companyId, input)
    ensures Filtered(rows, companyId, input) == rows
  {
    FilterAllPass(rows, e => MatchesFilter(e, companyId, input));
  }
}
