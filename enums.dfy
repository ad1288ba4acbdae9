/**
 * types/enums.ts: the status and type enumerations the routers and option
 * tables share, with the strings they are stored as.
 */
module Enums {

  datatype InvoiceStatus = InvoiceDraft | Sent | Viewed | Partial | InvoicePaid | Overdue | Void

  function InvoiceStatusName(s: InvoiceStatus): string {
    match s
    case InvoiceDraft => "draft"
    case Sent => "sent"
    case Viewed => "viewed"
    case Partial => "partial"
    case InvoicePaid => "paid"
    case Overdue => "overdue"
    case Void => "void"
  }

  datatype ExpenseStatus = ExpenseDraft | Submitted | Approved | Rejected | ExpensePaid

  function ExpenseStatusName(s: ExpenseStatus): string {
    match s
    case ExpenseDraft => "draft"
    case Submitted => "submitted"
    case Approved => "approved"
    case Rejected => "rejected"
    case ExpensePaid => "paid"
  }

  datatype AccountType = Asset | Liability | Equity | Revenue | Expense

  function AccountTypeName(t: AccountType): string {
    match t
    case Asset => "asset"
    case Liability => "liability"
    case Equity => "equity"
    case Revenue => "revenue"
    case Expense => "expense"
  }

  datatype ContactType = Customer | Supplier | Both

  function ContactTypeName(t: ContactType): string {
    match t
    case Customer => "customer"
    case Supplier => "supplier"
    case Both => "both"
  }

  datatype TransactionStatus = TransactionDraft | Posted | TransactionVoid
}
