/**
 * server/routers/customers.ts: customer contacts of a company. Emails are
 * unique among a company's customers, optional fields are stored as null
 * when absent or empty, and a customer with invoices cannot be deleted.
 */
module Customers {
  import opened Common
  import opened Text
  import opened Enums
  import opened Database
  import Invoices

  /** The contact exists, belongs to the company and is a customer (the `findFirst` of update and delete). */
  predicate IsCustomerOf(contacts: map<Id, Contact>, id: Id, companyId: Id) {
    id in contacts && contacts[id].companyId == companyId && contacts[id].contactType == Customer
  }

  /** Some customer of the company other than `except` has the email. */
  predicate EmailTaken(contacts: map<Id, Contact>, companyId: Id, email: string, except: Option<Id>) {
    exists id :: id in contacts && IsCustomerOf(contacts, id, companyId) && contacts[id].email == Some(email) && except != Some(id)
  }

  /** No two customers of one company share an email. */
  predicate EmailsUnique(contacts: map<Id, Contact>) {
    forall a, b :: (a in contacts && b in contacts && a != b
                    && contacts[a].companyId == contacts[b].companyId
                    && contacts[a].contactType == Customer && contacts[b].contactType == Customer
                    && contacts[a].email.Some?) ==> contacts[a].email != contacts[b].email
  }

  /** The fields of the create and update forms. */
  datatype CustomerInput = CustomerInput(name: string, email: Option<string>, phone: Option<string>,
                                         address: Option<string>, taxId: Option<string>, notes: Option<string>)

  /**
   * The schema: a name is required; an email, when given, must be one (the
   * empty string is not; other email syntax is not part of this model).
   */
  predicate ValidInput(input: CustomerInput) {
    input.name != "" && input.email != Some("")
  }

  /** The stored form of the fields: each optional field empty or absent becomes null. */
  function Normalized(c: Contact, input: CustomerInput): (r: Contact)
    ensures r.companyId == c.companyId && r.contactType == c.contactType && r.currency == c.currency
    ensures r.name == input.name
    ensures r.email == OrNull(input.email) && r.phone == OrNull(input.phone) && r.address == OrNull(input.address)
    ensures r.taxId == OrNull(input.taxId) && r.notes == OrNull(input.notes)
  {
    c.(name := input.name, email := OrNull(input.email), phone := OrNull(input.phone),
       address := OrNull(input.address), taxId := OrNull(input.taxId), notes := OrNull(input.notes))
  }

  function NewCustomer(companyId: Id, input: CustomerInput, currency: string): (c: Contact)
    ensures c.contactType == Customer && c.companyId == companyId && c.currency == currency
  {
    Normalized(Contact(companyId, Customer, "", None, None, None, None, None, currency), input)
  }

  /** `customers.create`. */
  method Create(db: Db, caller: Caller, input: CustomerInput, newId: Id) returns (r: Result<Contact>)
    requires caller.companyId in db.companies
    requires newId !in db.contacts
    modifies db`contacts
    ensures !ValidInput(input) ==> r == Err(BadRequest)
    ensures (ValidInput(input) && input.email.Some?
             && EmailTaken(old(db.contacts), caller.companyId, input.email.value, None)) ==> r == Err(Conflict)
    ensures r.Err? ==> db.contacts == old(db.contacts)
    ensures r.Ok? <==> ValidInput(input)
                       && (input.email.Some? ==> !EmailTaken(old(db.contacts), caller.companyId, input.email.value, None))
    ensures r.Ok? ==> r.value == NewCustomer(caller.companyId, input, db.companies[caller.companyId].currency)
                      && db.contacts == old(db.contacts)[newId := r.value]
    ensures EmailsUnique(old(db.contacts)) ==> EmailsUnique(db.contacts)
  {
    if !ValidInput(input) {
      return Err(BadRequest);
    }
    if input.email.Some? && EmailTaken(db.contacts, caller.companyId, input.email.value, None) {
      return Err(Conflict);
    }
    var c := NewCustomer(caller.companyId, input, db.companies[caller.companyId].currency);
    db.contacts := db.contacts[newId := c];
    r := Ok(c);
  }

  /** `customers.update`: the record is rewritten from the form, absent fields cleared. */
  method Update(db: Db, caller: Caller, id: Id, input: CustomerInput) returns (r: Result<Contact>)
    modifies db`contacts
    ensures !ValidInput(input) ==> r == Err(BadRequest)
    ensures ValidInput(input) && !IsCustomerOf(old(db.contacts), id, caller.companyId) ==> r == Err(NotFound)
    ensures (ValidInput(input) && IsCustomerOf(old(db.contacts), id, caller.companyId)
             && input.email.Some? && input.email != old(db.contacts)[id].email
             && EmailTaken(old(db.contacts), caller.companyId, input.email.value, Some(id))) ==> r == Err(Conflict)
    ensures r == Err(Conflict) ==> IsCustomerOf(old(db.contacts), id, caller.companyId)
                                   && input.email.Some? && input.email != old(db.contacts)[id].email
    ensures r.Err? ==> db.contacts == old(db.contacts)
    ensures r.Ok? <==> ValidInput(input) && IsCustomerOf(old(db.contacts), id, caller.companyId)
                       && !(input.email.Some? && input.email != old(db.contacts)[id].email
                            && EmailTaken(old(db.contacts), caller.companyId, input.email.value, Some(id)))
    ensures r.Ok? ==> r.value == Normalized(old(db.contacts)[id], input) && db.contacts == old(db.contacts)[id := r.value]
    ensures EmailsUnique(old(db.contacts)) ==> EmailsUnique(db.contacts)
  {
    if !ValidInput(input) {
      return Err(BadRequest);
    }
    if !IsCustomerOf(db.contacts, id, caller.companyId) {
      return Err(NotFound);
    }
    var existing := db.contacts[id];
    if input.email.Some? && input.email != existing.email
       && EmailTaken(db.contacts, caller.companyId, input.email.value, Some(id)) {
      return Err(Conflict);
    }
    var updated := Normalized(existing, input);
    db.contacts := db.contacts[id := updated];
    r := Ok(updated);
  }

  /** Some invoice, of any company, is addressed to the contact (`_count.invoices > 0`). */
  predicate HasInvoices(invoices: map<Id, Invoice>, contactId: Id) {
    exists i :: i in invoices && invoices[i].contactId == contactId
  }

  /** `customers.delete`. */
  method Delete(db: Db, caller: Caller, id: Id) returns (r: Result<()>)
    modifies db`contacts
    ensures !IsCustomerOf(old(db.contacts), id, caller.companyId) ==> r == Err(NotFound)
    ensures IsCustomerOf(old(db.contacts), id, caller.companyId) && HasInvoices(db.invoices, id) ==> r == Err(Forbidden)
    ensures r.Err? ==> db.contacts == old(db.contacts)
    ensures r.Ok? <==> IsCustomerOf(old(db.contacts), id, caller.companyId) && !HasInvoices(db.invoices, id)
    ensures r.Ok? ==> db.contacts == old(db.contacts) - {id}
  {
    if !IsCustomerOf(db.contacts, id, caller.companyId) {
      return Err(NotFound);
    }
    if HasInvoices(db.invoices, id) {
      return Err(Forbidden);
    }
    db.contacts := db.contacts - {id};
    r := Ok(());
  }

  /**
   * Creating an invoice may add a customer (when no contact matches by name
   * and email nor by email alone): it keeps the company's customer emails
   * unique too.
   */
  lemma InvoiceContactKeepsEmailsUnique(before: map<Id, Contact>, after: map<Id, Contact>, chosen: Id, newId: Id,
                                        companyId: Id, name: string, email: Option<string>, currency: string)
    requires Invoices.ContactResolved(before, after, chosen, newId, companyId, name, email, currency)
    requires newId !in before
    requires EmailsUnique(before)
    ensures EmailsUnique(after)
  {
    if after != before {
      var c := after[newId];
      assert after == before[newId := c];
    }
  }

  // ---------------------------------------------------------------------
  // getStats
  // ---------------------------------------------------------------------

  function CustomerIds(contacts: map<Id, Contact>, companyId: Id): set<Id> {
    set id | id in contacts && contacts[id].companyId == companyId && contacts[id].contactType == Customer
  }

  function WithInvoices(contacts: map<Id, Contact>, invoices: map<Id, Invoice>, companyId: Id): set<Id> {
    set id | id in CustomerIds(contacts, companyId) && HasInvoices(invoices, id)
  }

  function WithoutInvoices(contacts: map<Id, Contact>, invoices: map<Id, Invoice>, companyId: Id): set<Id> {
    set id | id in CustomerIds(contacts, companyId) && !HasInvoices(invoices, id)
  }

  datatype CustomerStats = CustomerStats(total: nat, withInvoices: nat, withoutInvoices: int)

  /**
   * `customers.getStats`: `withoutInvoices` is computed as a difference,
   * and is exactly the number of customers without an invoice.
   */
  function GetStats(contacts: map<Id, Contact>, invoices: map<Id, Invoice>, companyId: Id): (s: CustomerStats)
    ensures s.withInvoices <= s.total
    ensures s.withoutInvoices == |WithoutInvoices(contacts, invoices, companyId)|
    ensures s.total == |CustomerIds(contacts, companyId)| && s.withInvoices == |WithInvoices(contacts, invoices, companyId)|
  {
    var all := CustomerIds(contacts, companyId);
    var with := WithInvoices(contacts, invoices, companyId);
    var without := WithoutInvoices(contacts, invoices, companyId);
    assert all == with + without && with !! without;
    CustomerStats(|all|, |with|, |all| - |with|)
  }

  // ---------------------------------------------------------------------
  // list
  // ---------------------------------------------------------------------

  datatype ListCustomersInput = ListCustomersInput(search: Option<string>, limit: int, offset: int)

  /** The `where` clause of `list`: the company's customers, matching the search (if any) on name, email or phone. */
  predicate MatchesFilter(c: Contact, companyId: Id, search: Option<string>) {
    && c.companyId == companyId && c.contactType == Customer
    && (search.Some? && search.value != "" ==>
          ContainsIgnoreCase(c.name, search.value)
          || (c.email.Some? && ContainsIgnoreCase(c.email.value, search.value))
          || (c.phone.Some? && ContainsIgnoreCase(c.phone.value, search.value)))
  }

  /** The contacts matching the filter, in the order of the query, each once per occurrence. */
  function Filtered(rows: seq<Contact>, companyId: Id, search: Option<string>): (r: seq<Contact>)
    ensures forall c :: c in r <==> c in rows && MatchesFilter(c, companyId, search)
    ensures forall c :: multiset(r)[c] == if MatchesFilter(c, companyId, search) then multiset(rows)[c] else 0
  {
    Filter(rows, c => MatchesFilter(c, companyId, search))
  }

  datatype ListResult = ListResult(customers: seq<Contact>, total: nat, hasMore: bool)

  /** `customers.list` over the contacts in name order. */
  function List(rows: seq<Contact>, companyId: Id, input: ListCustomersInput): (r: Result<ListResult>)
    ensures r.Err? <==> !(1 <= input.limit <= 100 && input.offset >= 0)
    ensures r.Ok? ==> r.value.total == |Filtered(rows, companyId, input.search)| && |r.value.customers| <= input.limit
    ensures r.Ok? ==> r.value.customers == Page(Filtered(rows, companyId, input.search), input.offset, input.limit)
    ensures r.Ok? ==> forall i :: 0 <= i < |r.value.customers| ==>
                        r.value.customers[i].contactType == Customer && r.value.customers[i].companyId == companyId
    ensures r.Ok? ==> (r.value.hasMore <==> input.offset + input.limit < r.value.total)
  {
    if !(1 <= input.limit <= 100 && input.offset >= 0) then Err(BadRequest)
    else
      var matching := Filtered(rows, companyId, input.search);
      var page := Page(matching, input.offset, input.limit);
      PageWithin(matching, input.offset, input.limit);
      PageHasMore(matching, input.offset, input.limit);
      Ok(ListResult(page, |matching|, HasMore(input.offset, |page|, |matching|)))
  }
}
