/**
 * server/routers/invoices.ts: creating an invoice (contact reuse, totals and
 * numbered lines), moving it between statuses, deleting drafts, recording
 * payments against it, and the dashboard counts.
 */
module Invoices {
  import opened Common
  import opened Enums
  import opened Database
  import opened InvoiceValidation

  /**
   * The payment ledger every stored invoice keeps: what is paid and what is
   * still due add up to the total, and neither is negative.
   */
  predicate Consistent(inv: Invoice) {
    inv.amountPaid + inv.amountDue == inv.total && inv.amountDue >= 0.0 && inv.amountPaid >= 0.0
  }

  predicate AllConsistent(invoices: map<Id, Invoice>) {
    forall id :: id in invoices ==> Consistent(invoices[id])
  }

  /** The `findFirst({ where: { id, companyId } })` guard: the row exists and is the caller's. */
  predicate Owned(invoices: map<Id, Invoice>, id: Id, companyId: Id) {
    id in invoices && invoices[id].companyId == companyId
  }

  // ---------------------------------------------------------------------
  // create
  // ---------------------------------------------------------------------

  datatype CreateInvoiceInput = CreateInvoiceInput(
    invoiceNumber: string, customerName: string, customerEmail: Option<string>,
    invoiceDate: int, dueDate: int, lines: seq<LineInput>, notes: Option<string>,
    terms: Option<string>, status: Option<InvoiceStatus>)

  /** The create schema: a customer name, valid lines, and a status of draft (the default) or sent. */
  function ParseCreateInput(input: CreateInvoiceInput): (r: Result<(seq<InvoiceLine>, InvoiceStatus)>)
    ensures r.Ok? <==> input.customerName != "" && ParseLines(input.lines).Ok?
                       && input.status.GetOr(InvoiceDraft) in {InvoiceDraft, Sent}
    ensures r.Ok? ==> r.value == (ParseLines(input.lines).value, input.status.GetOr(InvoiceDraft))
    ensures r.Ok? ==> ValidLines(r.value.0) && |r.value.0| == |input.lines|
    ensures r.Ok? ==> r.value.1 == InvoiceDraft || r.value.1 == Sent
    ensures r.Err? ==> r.error == BadRequest
  {
    var status := input.status.GetOr(InvoiceDraft);
    if input.customerName == "" || !(status == InvoiceDraft || status == Sent) then Err(BadRequest)
    else
      match ParseLines(input.lines)
      case Err(e) => Err(e)
      case Ok(lines) => Ok((lines, status))
  }

  /** The first contact lookup: same company and name, and the same email when a non-empty one was given. */
  predicate MatchesNameAndEmail(c: Contact, companyId: Id, name: string, email: Option<string>) {
    c.companyId == companyId && c.name == name && (OrNull(email).Some? ==> c.email == OrNull(email))
  }

  /** The second lookup, by email only. */
  predicate MatchesEmail(c: Contact, companyId: Id, email: string) {
    c.companyId == companyId && c.email == Some(email)
  }

  /** The customer contact created when neither lookup finds one. */
  function NewCustomer(companyId: Id, name: string, email: Option<string>, currency: string): (c: Contact)
    ensures c.contactType == Customer && c.companyId == companyId && c.name == name
    ensures c.email.Some? <==> email.Some? && email.value != ""
  {
    Contact(companyId, Customer, name, OrNull(email), None, None, None, None, currency)
  }

  /**
   * How the contact of a new invoice is chosen: one matching name and email
   * if any exists; else, when an email was given, one with that email; else a
   * new customer under `newId`.
   */
  predicate ContactResolved(before: map<Id, Contact>, after: map<Id, Contact>, chosen: Id, newId: Id,
                            companyId: Id, name: string, email: Option<string>, currency: string)
  {
    var byNameAndEmail := exists id :: id in before && MatchesNameAndEmail(before[id], companyId, name, email);
    var byEmail := OrNull(email).Some? && exists id :: id in before && MatchesEmail(before[id], companyId, email.value);
    && (byNameAndEmail ==>
          after == before && chosen in before && MatchesNameAndEmail(before[chosen], companyId, name, email))
    && (!byNameAndEmail && byEmail ==>
          after == before && chosen in before && MatchesEmail(before[chosen], companyId, email.value))
    && (!byNameAndEmail && !byEmail ==>
          chosen == newId && after == before[newId := NewCustomer(companyId, name, email, currency)])
  }

  method FindOrCreateContact(db: Db, companyId: Id, name: string, email: Option<string>, currency: string, newId: Id)
    returns (contactId: Id)
    requires newId !in db.contacts
    modifies db`contacts
    ensures ContactResolved(old(db.contacts), db.contacts, contactId, newId, companyId, name, email, currency)
    ensures contactId in db.contacts
  {
    if exists id :: id in db.contacts && MatchesNameAndEmail(db.contacts[id], companyId, name, email) {
      contactId :| contactId in db.contacts && MatchesNameAndEmail(db.contacts[contactId], companyId, name, email);
      return;
    }
    if OrNull(email).Some? && exists id :: id in db.contacts && MatchesEmail(db.contacts[id], companyId, email.value) {
      contactId :| contactId in db.contacts && MatchesEmail(db.contacts[contactId], companyId, email.value);
      return;
    }
    contactId := newId;
    db.contacts := db.contacts[newId := NewCustomer(companyId, name, email, currency)];
  }

  /** The stored lines: numbered from 1 in input order, with their tax and gross amounts. */
  function LineRecords(lines: seq<InvoiceLine>, first: nat): (r: seq<LineRecord>)
    ensures |r| == |lines|
    ensures forall i :: 0 <= i < |lines| ==>
              && r[i].lineNumber == first + i
              && r[i].description == lines[i].description && r[i].quantity == lines[i].quantity
              && r[i].unitPrice == lines[i].unitPrice && r[i].taxRate == lines[i].taxRate
              && r[i].taxAmount == LineTax(lines[i])
              && r[i].amount == CalculateLineAmount(lines[i])
  {
    if lines == [] then []
    else
      var l := lines[0];
      [LineRecord(first, l.description, l.quantity, l.unitPrice, l.taxRate,
                  l.quantity * l.unitPrice * l.taxRate, l.quantity * l.unitPrice * (1.0 + l.taxRate))]
      + LineRecords(lines[1..], first + 1)
  }

  function LineAmountSum(records: seq<LineRecord>): real {
    if records == [] then 0.0 else records[0].amount + LineAmountSum(records[1..])
  }

  /** The stored line amounts add up to the stored total. */
  lemma {:induction false} StoredLinesAddUp(lines: seq<InvoiceLine>, first: nat)
    ensures LineAmountSum(LineRecords(lines, first)) == Subtotal(lines) + TaxTotal(lines)
  {
    if lines != [] {
      StoredLinesAddUp(lines[1..], first + 1);
      var r := LineRecords(lines, first);
      assert r[1..] == LineRecords(lines[1..], first + 1);
    }
  }

  /** The invoice row `create` stores. */
  function NewInvoice(companyId: Id, contactId: Id, input: CreateInvoiceInput, lines: seq<InvoiceLine>,
                      status: InvoiceStatus, currency: string, userId: Id, now: int): (inv: Invoice)
    requires ValidLines(lines)
    ensures Consistent(inv) && inv.amountPaid == 0.0 && inv.amountDue == inv.total
    ensures inv.total == CalculateInvoiceTotals(lines).total && inv.subtotal == CalculateInvoiceTotals(lines).subtotal
    ensures inv.taxTotal == CalculateInvoiceTotals(lines).taxTotal
    ensures inv.sentAt.Some? <==> status == Sent
    ensures inv.paidAt.None? && inv.status == status
    ensures |inv.lines| == |lines| && LineAmountSum(inv.lines) == inv.total
  {
    TaxWithinSubtotal(lines);
    StoredLinesAddUp(lines, 1);
    var subtotal := Subtotal(lines);
    var taxTotal := TaxTotal(lines);
    var total := subtotal + taxTotal;
    Invoice(companyId, contactId, input.invoiceNumber, input.invoiceDate, input.dueDate,
            subtotal, taxTotal, total, total, 0.0, currency, status, OrNull(input.notes), OrNull(input.terms),
            userId, if status == Sent then Some(now) else None, None, LineRecords(lines, 1))
  }

  /** `invoices.create`. */
  method Create(db: Db, caller: Caller, input: CreateInvoiceInput, newContactId: Id, newInvoiceId: Id, now: int)
    returns (r: Result<Id>)
    requires caller.companyId in db.companies
    requires newContactId !in db.contacts && newInvoiceId !in db.invoices
    modifies db`contacts, db`invoices
    ensures ParseCreateInput(input).Err? ==> r == Err(BadRequest) && unchanged(db)
    ensures ParseCreateInput(input).Ok? ==>
              var parsed := ParseCreateInput(input).value;
              var currency := db.companies[caller.companyId].currency;
              && r == Ok(newInvoiceId) && newInvoiceId in db.invoices
              && var contactId := db.invoices[newInvoiceId].contactId;
              && ContactResolved(old(db.contacts), db.contacts, contactId, newContactId, caller.companyId,
                                 input.customerName, input.customerEmail, currency)
              && db.invoices == old(db.invoices)[newInvoiceId := NewInvoice(caller.companyId, contactId, input,
                                   parsed.0, parsed.1, currency, caller.userId, now)]
    ensures AllConsistent(old(db.invoices)) ==> AllConsistent(db.invoices)
  {
    var parsed := ParseCreateInput(input);
    if parsed.Err? {
      return Err(BadRequest);
    }
    var (lines, status) := parsed.value;
    var currency := db.companies[caller.companyId].currency;
    var contactId := FindOrCreateContact(db, caller.companyId, input.customerName, input.customerEmail, currency, newContactId);
    var invoice := NewInvoice(caller.companyId, contactId, input, lines, status, currency, caller.userId, now);
    db.invoices := db.invoices[newInvoiceId := invoice];
    r := Ok(newInvoiceId);
  }

  // ---------------------------------------------------------------------
  // updateStatus
  // ---------------------------------------------------------------------

  /**
   * The update `updateStatus` applies: the first move to "sent" stamps
   * `sentAt`; the first move to "paid" stamps `paidAt` and settles the
   * balance; any other change sets the status alone.
   */
  function WithStatus(inv: Invoice, status: InvoiceStatus, now: int): (r: Invoice)
    ensures r.status == status && r.total == inv.total
    ensures r.sentAt == (if status == Sent && inv.sentAt.None? then Some(now) else inv.sentAt)
    ensures r.paidAt == (if status == InvoicePaid && inv.paidAt.None? then Some(now) else inv.paidAt)
    ensures status == InvoicePaid && inv.paidAt.None? ==> r.amountPaid == inv.total && r.amountDue == 0.0
    ensures !(status == InvoicePaid && inv.paidAt.None?) ==> r.amountPaid == inv.amountPaid && r.amountDue == inv.amountDue
    ensures r.(status := inv.status, sentAt := inv.sentAt, paidAt := inv.paidAt,
               amountPaid := inv.amountPaid, amountDue := inv.amountDue) == inv
    ensures Consistent(inv) ==> Consistent(r)
  {
    if status == Sent && inv.sentAt.None? then
      inv.(status := status, sentAt := Some(now))
    else if status == InvoicePaid && inv.paidAt.None? then
      inv.(status := status, paidAt := Some(now), amountPaid := inv.total, amountDue := 0.0)
    else
      inv.(status := status)
  }

  /** `sentAt` is stamped once: a later move to "sent" keeps the first stamp. */
  lemma SentStampedOnce(inv: Invoice, t1: int, t2: int, s: InvoiceStatus)
    requires inv.sentAt.None?
    ensures WithStatus(WithStatus(WithStatus(inv, Sent, t1), s, t2), Sent, t2).sentAt == Some(t1)
  {
  }

  /** `invoices.updateStatus`. */
  method UpdateStatus(db: Db, caller: Caller, id: Id, status: InvoiceStatus, now: int) returns (r: Result<Invoice>)
    modifies db`invoices
    ensures !Owned(old(db.invoices), id, caller.companyId) ==> r == Err(NotFound) && db.invoices == old(db.invoices)
    ensures Owned(old(db.invoices), id, caller.companyId) ==>
              var updated := WithStatus(old(db.invoices)[id], status, now);
              r == Ok(updated) && db.invoices == old(db.invoices)[id := updated]
    ensures AllConsistent(old(db.invoices)) ==> AllConsistent(db.invoices)
  {
    if !Owned(db.invoices, id, caller.companyId) {
      return Err(NotFound);
    }
    var updated := WithStatus(db.invoices[id], status, now);
    db.invoices := db.invoices[id := updated];
    r := Ok(updated);
  }

  // ---------------------------------------------------------------------
  // delete
  // ---------------------------------------------------------------------

  /** `invoices.delete`: only the caller's drafts can be deleted (their lines go with them). */
  method Delete(db: Db, caller: Caller, id: Id) returns (r: Result<()>)
    modifies db`invoices
    ensures !Owned(old(db.invoices), id, caller.companyId) ==> r == Err(NotFound) && db.invoices == old(db.invoices)
    ensures Owned(old(db.invoices), id, caller.companyId) && old(db.invoices)[id].status != InvoiceDraft ==>
              r == Err(BadRequest) && db.invoices == old(db.invoices)
    ensures Owned(old(db.invoices), id, caller.companyId) && old(db.invoices)[id].status == InvoiceDraft ==>
              r == Ok(()) && db.invoices == old(db.invoices) - {id}
    ensures r.Ok? <==> id !in db.invoices && id in old(db.invoices)
  {
    if !Owned(db.invoices, id, caller.companyId) {
      return Err(NotFound);
    }
    if db.invoices[id].status != InvoiceDraft {
      return Err(BadRequest);
    }
    db.invoices := db.invoices - {id};
    r := Ok(());
  }

  // ---------------------------------------------------------------------
  // recordPayment
  // ---------------------------------------------------------------------

  datatype PaymentInput = PaymentInput(
    invoiceId: Id, amount: real, paymentDate: int, paymentMethod: PaymentMethod,
    reference: Option<string>, notes: Option<string>)

  /** The status after a payment: paid when nothing is due, partial when both parts are positive. */
  function StatusAfterPayment(status: InvoiceStatus, paid: real, due: real): (s: InvoiceStatus)
    ensures due == 0.0 ==> s == InvoicePaid
    ensures due != 0.0 && paid > 0.0 && due > 0.0 ==> s == Partial
    ensures due != 0.0 && !(paid > 0.0 && due > 0.0) ==> s == status
  {
    if due == 0.0 then InvoicePaid
    else if paid > 0.0 && due > 0.0 then Partial
    else status
  }

  /** The invoice update of `recordPayment` for an accepted amount. */
  function ApplyPayment(inv: Invoice, amount: real, now: int): (r: Invoice)
    ensures r.amountPaid == inv.amountPaid + amount
    ensures r.amountPaid + r.amountDue == r.total && r.total == inv.total
    ensures r.status == StatusAfterPayment(inv.status, r.amountPaid, r.amountDue)
    ensures r.paidAt == (if r.status == InvoicePaid then Some(now) else inv.paidAt)
    ensures r.(amountPaid := inv.amountPaid, amountDue := inv.amountDue, status := inv.status, paidAt := inv.paidAt) == inv
  {
    var newPaid := inv.amountPaid + amount;
    var newDue := inv.total - newPaid;
    var newStatus := StatusAfterPayment(inv.status, newPaid, newDue);
    inv.(amountPaid := newPaid, amountDue := newDue, status := newStatus,
         paidAt := if newStatus == InvoicePaid then Some(now) else inv.paidAt)
  }

  /**
   * An accepted payment on a consistent invoice keeps it consistent, lowers
   * what is due by the amount, and leaves it paid or partially paid.
   */
  lemma PaymentKeepsLedger(inv: Invoice, amount: real, now: int)
    requires Consistent(inv) && 0.0 < amount <= inv.amountDue
    ensures Consistent(ApplyPayment(inv, amount, now))
    ensures ApplyPayment(inv, amount, now).amountDue == inv.amountDue - amount
    ensures ApplyPayment(inv, amount, now).status == (if amount == inv.amountDue then InvoicePaid else Partial)
  {
  }

  /** Paying exactly what is due settles the invoice and stamps `paidAt`. */
  lemma PayingInFullSettles(inv: Invoice, now: int)
    requires Consistent(inv) && inv.amountDue > 0.0
    ensures var r := ApplyPayment(inv, inv.amountDue, now);
            r.amountDue == 0.0 && r.amountPaid == r.total && r.status == InvoicePaid && r.paidAt == Some(now)
  {
  }

  /** Two accepted payments leave the same balance as one payment of their sum. */
  lemma PaymentsAccumulate(inv: Invoice, a: real, b: real, t1: int, t2: int)
    ensures ApplyPayment(ApplyPayment(inv, a, t1), b, t2).amountDue == ApplyPayment(inv, a + b, t2).amountDue
    ensures ApplyPayment(ApplyPayment(inv, a, t1), b, t2).amountPaid == ApplyPayment(inv, a + b, t2).amountPaid
  {
  }

  /** `invoices.recordPayment`: a payment, its allocation to the invoice, and the invoice update, together. */
  method RecordPayment(db: Db, caller: Caller, input: PaymentInput, paymentId: Id, allocationId: Id, now: int)
    returns (r: Result<Invoice>)
    requires paymentId !in db.payments && allocationId !in db.allocations
    modifies db`invoices, db`payments, db`allocations
    ensures input.amount <= 0.0 ==> r == Err(BadRequest) && unchanged(db)
    ensures input.amount > 0.0 && !Owned(old(db.invoices), input.invoiceId, caller.companyId) ==>
              r == Err(NotFound) && unchanged(db)
    ensures input.amount > 0.0 && Owned(old(db.invoices), input.invoiceId, caller.companyId)
            && input.amount > old(db.invoices)[input.invoiceId].amountDue ==>
              r == Err(BadRequest) && unchanged(db)
    ensures r.Ok? <==> input.amount > 0.0 && Owned(old(db.invoices), input.invoiceId, caller.companyId)
                       && input.amount <= old(db.invoices)[input.invoiceId].amountDue
    ensures r.Ok? ==>
              var inv := old(db.invoices)[input.invoiceId];
              && 0.0 < input.amount <= inv.amountDue
              && r.value == ApplyPayment(inv, input.amount, now)
              && db.invoices == old(db.invoices)[input.invoiceId := r.value]
              && db.payments == old(db.payments)[paymentId := Payment(caller.companyId, inv.contactId, input.amount,
                     input.paymentDate, input.paymentMethod, OrNull(input.reference), OrNull(input.notes), caller.userId)]
              && db.allocations == old(db.allocations)[allocationId := PaymentAllocation(paymentId, input.invoiceId, input.amount)]
    ensures r.Err? || Owned(old(db.invoices), input.invoiceId, caller.companyId)
    ensures AllConsistent(old(db.invoices)) ==> AllConsistent(db.invoices)
  {
    if input.amount <= 0.0 {
      return Err(BadRequest);
    }
    if !Owned(db.invoices, input.invoiceId, caller.companyId) {
      return Err(NotFound);
    }
    var inv := db.invoices[input.invoiceId];
    if input.amount > inv.amountDue {
      return Err(BadRequest);
    }
    if Consistent(inv) {
      PaymentKeepsLedger(inv, input.amount, now);
    }
    db.payments := db.payments[paymentId := Payment(caller.companyId, inv.contactId, input.amount,
                     input.paymentDate, input.paymentMethod, OrNull(input.reference), OrNull(input.notes), caller.userId)];
    db.allocations := db.allocations[allocationId := PaymentAllocation(paymentId, input.invoiceId, input.amount)];
    var updated := ApplyPayment(inv, input.amount, now);
    db.invoices := db.invoices[input.invoiceId := updated];
    r := Ok(updated);
  }

  // ---------------------------------------------------------------------
  // getStats
  // ---------------------------------------------------------------------

  datatype InvoiceStats = InvoiceStats(total: nat, paid: nat, pending: nat, overdue: nat)

  /** The ids of a company's invoices whose status is one of `statuses`. */
  function WithStatusIn(invoices: map<Id, Invoice>, companyId: Id, statuses: set<InvoiceStatus>): set<Id> {
    set id | id in invoices && invoices[id].companyId == companyId && invoices[id].status in statuses
  }

  /** The ids of all of a company's invoices, whatever their status. */
  function CompanyInvoices(invoices: map<Id, Invoice>, companyId: Id): set<Id> {
    set id | id in invoices && invoices[id].companyId == companyId
  }

  const AllStatuses: set<InvoiceStatus> := {InvoiceDraft, Sent, Viewed, Partial, InvoicePaid, Overdue, Void}
  const PendingStatuses: set<InvoiceStatus> := {Sent, Viewed, Partial}

  /** `invoices.getStats`: counts of all, paid, pending (sent, viewed or partial) and overdue invoices. */
  function GetStats(invoices: map<Id, Invoice>, companyId: Id): (s: InvoiceStats)
    ensures s.total == |CompanyInvoices(invoices, companyId)|
    ensures s.paid == |WithStatusIn(invoices, companyId, {InvoicePaid})|
    ensures s.pending == |WithStatusIn(invoices, companyId, PendingStatuses)|
    ensures s.overdue == |WithStatusIn(invoices, companyId, {Overdue})|
    ensures s.paid + s.pending + s.overdue <= s.total
    ensures s.total - (s.paid + s.pending + s.overdue) == |WithStatusIn(invoices, companyId, {InvoiceDraft, Void})|
  {
    var all := WithStatusIn(invoices, companyId, AllStatuses);
    var paid := WithStatusIn(invoices, companyId, {InvoicePaid});
    var pending := WithStatusIn(invoices, companyId, PendingStatuses);
    var overdue := WithStatusIn(invoices, companyId, {Overdue});
    var rest := WithStatusIn(invoices, companyId, {InvoiceDraft, Void});
    StatusPartition(invoices, companyId);
    EveryStatusCounted(invoices, companyId);
    InvoiceStats(|all|, |paid|, |pending|, |overdue|)
  }

  /** Every status is one of the seven, so counting all statuses counts every invoice of the company. */
  lemma EveryStatusCounted(invoices: map<Id, Invoice>, companyId: Id)
    ensures WithStatusIn(invoices, companyId, AllStatuses) == CompanyInvoices(invoices, companyId)
  {
    forall id | id in CompanyInvoices(invoices, companyId)
      ensures id in WithStatusIn(invoices, companyId, AllStatuses)
    {
      match invoices[id].status
      case InvoiceDraft => case Sent => case Viewed => case Partial =>
      case InvoicePaid => case Overdue => case Void =>
    }
  }

  /** Counting over two disjoint groups of statuses adds up. */
  lemma CountDisjoint(invoices: map<Id, Invoice>, companyId: Id, s1: set<InvoiceStatus>, s2: set<InvoiceStatus>)
    requires s1 !! s2
    ensures |WithStatusIn(invoices, companyId, s1 + s2)| ==
            |WithStatusIn(invoices, companyId, s1)| + |WithStatusIn(invoices, companyId, s2)|
  {
    var a := WithStatusIn(invoices, companyId, s1);
    var b := WithStatusIn(invoices, companyId, s2);
    assert WithStatusIn(invoices, companyId, s1 + s2) == a + b;
    assert a !! b;
  }

  /** Every invoice of the company falls in exactly one of the counted groups or among drafts and voids. */
  lemma StatusPartition(invoices: map<Id, Invoice>, companyId: Id)
    ensures |WithStatusIn(invoices, companyId, AllStatuses)| ==
            |WithStatusIn(invoices, companyId, {InvoicePaid})| + |WithStatusIn(invoices, companyId, PendingStatuses)|
            + |WithStatusIn(invoices, companyId, {Overdue})| + |WithStatusIn(invoices, companyId, {InvoiceDraft, Void})|
  {
    var paidOrPending := {InvoicePaid} + PendingStatuses;
    var counted := paidOrPending + {Overdue};
    CountDisjoint(invoices, companyId, {InvoicePaid}, PendingStatuses);
    CountDisjoint(invoices, companyId, paidOrPending, {Overdue});
    CountDisjoint(invoices, companyId, counted, {InvoiceDraft, Void});
    assert counted + {InvoiceDraft, Void} == AllStatuses;
  }
}
