/**
 * lib/constants/options.ts: the select-option tables, the subtype table
 * chosen by account type, and the lookups by value.
 */
module Options {
  import opened Common
  import opened Enums

  datatype SelectOption = SelectOption(
    value: string, labelText: string, description: Option<string>, color: Option<string>, icon: Option<string>)

  function Plain(value: string, labelText: string): SelectOption {
    SelectOption(value, labelText, None, None, None)
  }

  function Colored(value: string, labelText: string, color: string): SelectOption {
    SelectOption(value, labelText, None, Some(color), None)
  }

  function WithIcon(value: string, labelText: string, icon: string): SelectOption {
    SelectOption(value, labelText, None, None, Some(icon))
  }

  function Described(value: string, labelText: string, description: string): SelectOption {
    SelectOption(value, labelText, Some(description), None, None)
  }

  const InvoiceStatusOptions: seq<SelectOption> := [
    Colored("draft", "Draft", "gray"),
    Colored("sent", "Sent", "blue"),
    Colored("viewed", "Viewed", "purple"),
    Colored("partial", "Partially Paid", "yellow"),
    Colored("paid", "Paid", "green"),
    Colored("overdue", "Overdue", "red"),
    Colored("void", "Void", "gray")]

  const ExpenseStatusOptions: seq<SelectOption> := [
    Colored("draft", "Draft", "gray"),
    Colored("submitted", "Submitted", "blue"),
    Colored("approved", "Approved", "green"),
    Colored("rejected", "Rejected", "red"),
    Colored("paid", "Paid", "green")]

  const ExpenseCategoryOptions: seq<SelectOption> := [
    WithIcon("travel", "Travel", "\U{2708}\U{FE0F}"),
    WithIcon("meals", "Meals & Entertainment", "\U{1F37D}\U{FE0F}"),
    WithIcon("office_supplies", "Office Supplies", "\U{1F4CE}"),
    WithIcon("software", "Software & Subscriptions", "\U{1F4BB}"),
    WithIcon("advertising", "Advertising & Marketing", "\U{1F4E2}"),
    WithIcon("utilities", "Utilities", "\U{26A1}"),
    WithIcon("rent", "Rent & Lease", "\U{1F3E2}"),
    WithIcon("insurance", "Insurance", "\U{1F6E1}\U{FE0F}"),
    WithIcon("professional_services", "Professional Services", "\U{1F454}"),
    WithIcon("equipment", "Equipment", "\U{1F527}"),
    WithIcon("maintenance", "Maintenance & Repairs", "\U{1F528}"),
    WithIcon("other", "Other", "\U{1F4E6}")]

  const PaymentMethodOptions: seq<SelectOption> := [
    WithIcon("cash", "Cash", "\U{1F4B5}"),
    WithIcon("credit_card", "Credit Card", "\U{1F4B3}"),
    WithIcon("bank_transfer", "Bank Transfer", "\U{1F3E6}"),
    WithIcon("other", "Other", "\U{1F4DD}")]

  const AccountTypeOptions: seq<SelectOption> := [
    SelectOption("asset", "Asset", Some("Resources owned by the business"), Some("blue"), None),
    SelectOption("liability", "Liability", Some("Debts and obligations"), Some("red"), None),
    SelectOption("equity", "Equity", Some("Owner's stake in the business"), Some("purple"), None),
    SelectOption("revenue", "Revenue", Some("Income from business activities"), Some("green"), None),
    SelectOption("expense", "Expense", Some("Costs of running the business"), Some("orange"), None)]

  const AssetSubtypeOptions: seq<SelectOption> := [
    Plain("current_asset", "Current Asset"),
    Plain("fixed_asset", "Fixed Asset"),
    Plain("cash", "Cash & Cash Equivalents"),
    Plain("accounts_receivable", "Accounts Receivable"),
    Plain("inventory", "Inventory"),
    Plain("other_asset", "Other Asset")]

  const LiabilitySubtypeOptions: seq<SelectOption> := [
    Plain("current_liability", "Current Liability"),
    Plain("long_term_liability", "Long-term Liability"),
    Plain("accounts_payable", "Accounts Payable"),
    Plain("credit_card", "Credit Card"),
    Plain("other_liability", "Other Liability")]

  const EquitySubtypeOptions: seq<SelectOption> := [
    Plain("owner_equity", "Owner's Equity"),
    Plain("retained_earnings", "Retained Earnings"),
    Plain("common_stock", "Common Stock"),
    Plain("other_equity", "Other Equity")]

  const RevenueSubtypeOptions: seq<SelectOption> := [
    Plain("sales_revenue", "Sales Revenue"),
    Plain("service_revenue", "Service Revenue"),
    Plain("other_revenue", "Other Revenue")]

  const ExpenseSubtypeOptions: seq<SelectOption> := [
    Plain("operating_expense", "Operating Expense"),
    Plain("cost_of_goods_sold", "Cost of Goods Sold"),
    Plain("payroll_expense", "Payroll Expense"),
    Plain("tax_expense", "Tax Expense"),
    Plain("other_expense", "Other Expense")]

  const ContactTypeOptions: seq<SelectOption> := [
    WithIcon("customer", "Customer", "\U{1F464}"),
    WithIcon("supplier", "Supplier", "\U{1F3ED}"),
    WithIcon("both", "Both Customer & Supplier", "\U{1F504}")]

  const BusinessTypeOptions: seq<SelectOption> := [
    Plain("sole_proprietor", "Sole Proprietor"),
    Plain("llc", "Limited Liability Company (LLC)"),
    Plain("corporation", "Corporation"),
    Plain("partnership", "Partnership"),
    Plain("other", "Other")]

  const FiscalYearEndOptions: seq<SelectOption> := [
    Plain("01", "January"), Plain("02", "February"), Plain("03", "March"),
    Plain("04", "April"), Plain("05", "May"), Plain("06", "June"),
    Plain("07", "July"), Plain("08", "August"), Plain("09", "September"),
    Plain("10", "October"), Plain("11", "November"), Plain("12", "December")]

  const UserRoleOptions: seq<SelectOption> := [
    Described("owner", "Owner", "Full access to all features"),
    Described("admin", "Administrator", "Manage most features except company settings"),
    Described("accountant", "Accountant", "View and manage financial records"),
    Described("employee", "Employee", "Limited access to create expenses and view reports")]

  const ReportIntervalOptions: seq<SelectOption> := [
    Plain("day", "Daily"), Plain("week", "Weekly"), Plain("month", "Monthly"),
    Plain("quarter", "Quarterly"), Plain("year", "Yearly")]

  const CurrencyOptions: seq<SelectOption> := [
    WithIcon("USD", "US Dollar (USD)", "$"),
    WithIcon("EUR", "Euro (EUR)", "\U{20AC}"),
    WithIcon("GBP", "British Pound (GBP)", "\U{00A3}"),
    WithIcon("SEK", "Swedish Krona (SEK)", "kr"),
    WithIcon("NOK", "Norwegian Krone (NOK)", "kr"),
    WithIcon("DKK", "Danish Krone (DKK)", "kr")]

  // ---------------------------------------------------------------------
  // Lookups
  // ---------------------------------------------------------------------

  predicate HasValue(options: seq<SelectOption>, value: string) {
    exists i :: 0 <= i < |options| && options[i].value == value
  }

  /** `options.find(opt => opt.value === value)`: the first option with that value. */
  function Find(options: seq<SelectOption>, value: string): (r: Option<nat>)
    ensures r.None? <==> !HasValue(options, value)
    ensures r.Some? ==> r.value < |options| && options[r.value].value == value
    ensures r.Some? ==> forall j :: 0 <= j < r.value ==> options[j].value != value
  {
    if options == [] then None
    else if options[0].value == value then Some(0)
    else
      match Find(options[1..], value)
      case None =>
        assert !HasValue(options, value) by {
          forall i | 0 <= i < |options| ensures options[i].value != value {
            if i > 0 { assert options[1..][i - 1] == options[i]; }
          }
        }
        None
      case Some(i) =>
        assert forall j :: 1 <= j < i + 1 ==> options[j] == options[1..][j - 1];
        Some(i + 1)
  }

  /** `getOptionLabel`: the matching option's label, or the value itself (an empty label also falls back). */
  function GetOptionLabel(options: seq<SelectOption>, value: string): (labelText: string)
    ensures !HasValue(options, value) ==> labelText == value
    ensures HasValue(options, value) ==>
              exists i :: 0 <= i < |options| && options[i].value == value && (forall j :: 0 <= j < i ==> options[j].value != value) &&
                          labelText == (if options[i].labelText != "" then options[i].labelText else value)
  {
    match Find(options, value)
    case None => value
    case Some(i) => if options[i].labelText != "" then options[i].labelText else value
  }

  /** `getOptionColor`: the matching option's colour; absent when no option matches. */
  function GetOptionColor(options: seq<SelectOption>, value: string): (color: Option<string>)
    ensures !HasValue(options, value) ==> color.None?
    ensures HasValue(options, value) ==>
              exists i :: 0 <= i < |options| && options[i].value == value && (forall j :: 0 <= j < i ==> options[j].value != value) &&
                          color == options[i].color
  {
    match Find(options, value)
    case None => None
    case Some(i) => options[i].color
  }

  /** `getOptionIcon`: the matching option's icon; absent when no option matches. */
  function GetOptionIcon(options: seq<SelectOption>, value: string): (icon: Option<string>)
    ensures !HasValue(options, value) ==> icon.None?
    ensures HasValue(options, value) ==>
              exists i :: 0 <= i < |options| && options[i].value == value && (forall j :: 0 <= j < i ==> options[j].value != value) &&
                          icon == options[i].icon
  {
    match Find(options, value)
    case None => None
    case Some(i) => options[i].icon
  }

  predicate DistinctValues(options: seq<SelectOption>) {
    forall i, j :: 0 <= i < j < |options| ==> options[i].value != options[j].value
  }

  /** With distinct values, a lookup returns the one option carrying that value. */
  lemma LookupUnambiguous(options: seq<SelectOption>, i: nat)
    requires DistinctValues(options) && i < |options|
    ensures Find(options, options[i].value) == Some(i)
    ensures GetOptionColor(options, options[i].value) == options[i].color
    ensures GetOptionIcon(options, options[i].value) == options[i].icon
    ensures options[i].labelText != "" ==> GetOptionLabel(options, options[i].value) == options[i].labelText
  {
  }

  /** `getSubtypeOptions`: the subtype table of each account type, none for anything else. */
  function GetSubtypeOptions(accountType: string): (r: seq<SelectOption>)
    ensures (exists t: AccountType :: AccountTypeName(t) == accountType) <==> r != []
  {
    if accountType == AccountTypeName(Asset) then AssetSubtypeOptions
    else if accountType == AccountTypeName(Liability) then LiabilitySubtypeOptions
    else if accountType == AccountTypeName(Equity) then EquitySubtypeOptions
    else if accountType == AccountTypeName(Revenue) then RevenueSubtypeOptions
    else if accountType == AccountTypeName(Expense) then ExpenseSubtypeOptions
    else
      assert forall t: AccountType :: AccountTypeName(t) != accountType;
      []
  }

  /** Each account type picks its own table. */
  lemma SubtypeTables()
    ensures GetSubtypeOptions(AccountTypeName(Asset)) == AssetSubtypeOptions
    ensures GetSubtypeOptions(AccountTypeName(Liability)) == LiabilitySubtypeOptions
    ensures GetSubtypeOptions(AccountTypeName(Equity)) == EquitySubtypeOptions
    ensures GetSubtypeOptions(AccountTypeName(Revenue)) == RevenueSubtypeOptions
    ensures GetSubtypeOptions(AccountTypeName(Expense)) == ExpenseSubtypeOptions
  {
  }

  /** Every invoice status has its option, so a status badge never falls back to the raw value. */
  lemma InvoiceStatusTableCovers(status: InvoiceStatus)
    ensures HasValue(InvoiceStatusOptions, InvoiceStatusName(status))
  {
    var k := match status
      case InvoiceDraft => 0 case Sent => 1 case Viewed => 2 case Partial => 3
      case InvoicePaid => 4 case Overdue => 5 case Void => 6;
    assert InvoiceStatusOptions[k].value == InvoiceStatusName(status);
  }

  /** Every invoice-status option is a status. */
  lemma InvoiceStatusTableExact(k: nat)
    requires k < |InvoiceStatusOptions|
    ensures exists status: InvoiceStatus :: InvoiceStatusName(status) == InvoiceStatusOptions[k].value
  {
    var order := [InvoiceDraft, Sent, Viewed, Partial, InvoicePaid, Overdue, Void];
    assert InvoiceStatusName(order[k]) == InvoiceStatusOptions[k].value;
  }

  /** Every expense status has its option. */
  lemma ExpenseStatusTableCovers(status: ExpenseStatus)
    ensures HasValue(ExpenseStatusOptions, ExpenseStatusName(status))
  {
    var k := match status
      case ExpenseDraft => 0 case Submitted => 1 case Approved => 2 case Rejected => 3 case ExpensePaid => 4;
    assert ExpenseStatusOptions[k].value == ExpenseStatusName(status);
  }

  /** Every expense-status option is a status. */
  lemma ExpenseStatusTableExact(k: nat)
    requires k < |ExpenseStatusOptions|
    ensures exists status: ExpenseStatus :: ExpenseStatusName(status) == ExpenseStatusOptions[k].value
  {
    var order := [ExpenseDraft, Submitted, Approved, Rejected, ExpensePaid];
    assert ExpenseStatusName(order[k]) == ExpenseStatusOptions[k].value;
  }

  /** Within every table the values are pairwise distinct, so every lookup is unambiguous. */
  lemma TablesHaveDistinctValues()
    ensures DistinctValues(InvoiceStatusOptions)
    ensures DistinctValues(ExpenseStatusOptions)
    ensures DistinctValues(ExpenseCategoryOptions)
    ensures DistinctValues(PaymentMethodOptions)
    ensures DistinctValues(AccountTypeOptions)
    ensures DistinctValues(AssetSubtypeOptions)
    ensures DistinctValues(LiabilitySubtypeOptions)
    ensures DistinctValues(EquitySubtypeOptions)
    ensures DistinctValues(RevenueSubtypeOptions)
    ensures DistinctValues(ExpenseSubtypeOptions)
    ensures DistinctValues(ContactTypeOptions)
    ensures DistinctValues(BusinessTypeOptions)
    ensures DistinctValues(FiscalYearEndOptions)
    ensures DistinctValues(UserRoleOptions)
    ensures DistinctValues(ReportIntervalOptions)
    ensures DistinctValues(CurrencyOptions)
  {
    DistinctInvoiceStatusOptions();
    DistinctExpenseStatusOptions();
    DistinctExpenseCategoryOptions();
    DistinctPaymentMethodOptions();
    DistinctAccountTypeOptions();
    DistinctAssetSubtypeOptions();
    DistinctLiabilitySubtypeOptions();
    DistinctEquitySubtypeOptions();
    DistinctRevenueSubtypeOptions();
    DistinctExpenseSubtypeOptions();
    DistinctContactTypeOptions();
    DistinctBusinessTypeOptions();
    DistinctFiscalYearEndOptions();
    DistinctUserRoleOptions();
    DistinctReportIntervalOptions();
    DistinctCurrencyOptions();
  }

  lemma DistinctInvoiceStatusOptions()
    ensures DistinctValues(InvoiceStatusOptions)
  {
  }

  lemma DistinctExpenseStatusOptions()
    ensures DistinctValues(ExpenseStatusOptions)
  {
  }

  lemma DistinctExpenseCategoryOptions()
    ensures DistinctValues(ExpenseCategoryOptions)
  {
  }

  lemma DistinctPaymentMethodOptions()
    ensures DistinctValues(PaymentMethodOptions)
  {
  }

  lemma DistinctAccountTypeOptions()
    ensures DistinctValues(AccountTypeOptions)
  {
  }

  lemma DistinctAssetSubtypeOptions()
    ensures DistinctValues(AssetSubtypeOptions)
  {
  }

  lemma DistinctLiabilitySubtypeOptions()
    ensures DistinctValues(LiabilitySubtypeOptions)
  {
  }

  lemma DistinctEquitySubtypeOptions()
    ensures DistinctValues(EquitySubtypeOptions)
  {
  }

  lemma DistinctRevenueSubtypeOptions()
    ensures DistinctValues(RevenueSubtypeOptions)
  {
  }

  lemma DistinctExpenseSubtypeOptions()
    ensures DistinctValues(ExpenseSubtypeOptions)
  {
  }

  lemma DistinctContactTypeOptions()
    ensures DistinctValues(ContactTypeOptions)
  {
  }

  lemma DistinctBusinessTypeOptions()
    ensures DistinctValues(BusinessTypeOptions)
  {
  }

  lemma DistinctFiscalYearEndOptions()
    ensures DistinctValues(FiscalYearEndOptions)
  {
  }

  lemma DistinctUserRoleOptions()
    ensures DistinctValues(UserRoleOptions)
  {
  }

  lemma DistinctReportIntervalOptions()
    ensures DistinctValues(ReportIntervalOptions)
  {
  }

  lemma DistinctCurrencyOptions()
    ensures DistinctValues(CurrencyOptions)
  {
  }
}
