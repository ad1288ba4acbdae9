/**
 * The rows the routers read and write, and the in-memory store standing for
 * the Prisma client: one map from id to row per table. Each router procedure
 * names in its `modifies` clause the tables it may write.
 */
module Database {
  import opened Common
  import opened Enums

  /** A value stored in a company's free-form `settings` JSON. */
  datatype SettingValue =
    | Str(s: string)
    | Num(n: real)
    | AddressValue(fields: map<string, string>)

  type Settings = map<string, SettingValue>

  datatype Company = Company(
    name: string, businessType: Option<string>, taxId: Option<string>, countryCode: Option<string>,
    fiscalYearEnd: Option<string>, currency: string, settings: Option<Settings>)

  datatype Contact = Contact(
    companyId: Id, contactType: ContactType, name: string, email: Option<string>,
    phone: Option<string>, address: Option<string>, taxId: Option<string>, notes: Option<string>,
    currency: string)

  /** A stored invoice line (`taxRate` 0.2 is 20%). */
  datatype LineRecord = LineRecord(
    lineNumber: nat, description: string, quantity: real, unitPrice: real, taxRate: real,
    taxAmount: real, amount: real)

  datatype Invoice = Invoice(
    companyId: Id, contactId: Id, invoiceNumber: string, invoiceDate: int, dueDate: int,
    subtotal: real, taxTotal: real, total: real, amountDue: real, amountPaid: real,
    currency: string, status: InvoiceStatus, notes: Option<string>, terms: Option<string>,
    createdBy: Id, sentAt: Option<int>, paidAt: Option<int>, lines: seq<LineRecord>)

  datatype PaymentMethod = BankTransfer | CreditCard | Cash | Check | OtherMethod

  datatype Payment = Payment(
    companyId: Id, contactId: Id, amount: real, paymentDate: int, paymentMethod: PaymentMethod,
    reference: Option<string>, notes: Option<string>, createdBy: Id)

  datatype PaymentAllocation = PaymentAllocation(paymentId: Id, invoiceId: Id, amount: real)

  datatype ExpensePaymentMethod = ExpenseCash | ExpenseCreditCard | ExpenseBankTransfer | ExpenseOther

  datatype ExpenseRecord = ExpenseRecord(
    companyId: Id, expenseDate: int, amount: real, description: string, merchant: Option<string>,
    category: Option<string>, paymentMethod: Option<ExpensePaymentMethod>, contactId: Option<Id>,
    taxAmount: real, isTaxDeductible: bool, receiptUrl: Option<string>, notes: Option<string>,
    currency: string, createdBy: Id, status: ExpenseStatus,
    approvedAt: Option<int>, approvedBy: Option<Id>,
    rejectedAt: Option<int>, rejectedBy: Option<Id>, rejectReason: Option<string>)

  datatype Account = Account(
    companyId: Id, code: string, name: string, accountType: AccountType, subType: Option<string>,
    isBankAccount: bool, isControlAccount: bool, parentAccountId: Option<Id>,
    taxCategory: Option<string>, currency: string, isSystem: bool, isActive: bool)

  /** One line of a journal transaction, with the transaction's id, date and status. */
  datatype TransactionLine = TransactionLine(
    transactionId: Id, companyId: Id, accountId: Id, amount: real, transactionDate: int, status: TransactionStatus)

  /** An account as a query returns it: its id and its columns. */
  type AccountRow = (Id, Account)

  class Db {
    var companies: map<Id, Company>
    var contacts: map<Id, Contact>
    var invoices: map<Id, Invoice>
    var payments: map<Id, Payment>
    var allocations: map<Id, PaymentAllocation>
    var expenses: map<Id, ExpenseRecord>
    var accounts: map<Id, Account>
    var transactionLines: map<Id, TransactionLine>

    constructor()
      ensures companies == map[] && contacts == map[] && invoices == map[] && payments == map[]
      ensures allocations == map[] && expenses == map[] && accounts == map[] && transactionLines == map[]
    {
      companies := map[];
      contacts := map[];
      invoices := map[];
      payments := map[];
      allocations := map[];
      expenses := map[];
      accounts := map[];
      transactionLines := map[];
    }
  }
}
