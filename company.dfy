/**
 * server/routers/company.ts: editing the company profile and its settings.
 * Only owners and admins may do either; settings are a free-form map that
 * the supplied keys overwrite, and the currency column follows a supplied
 * currency.
 */
module CompanyRouter {
  import opened Common
  import opened Text
  import opened Patterns
  import opened ValidationRules
  import opened Database

  // ---------------------------------------------------------------------
  // updateProfile
  // ---------------------------------------------------------------------

  const BusinessTypes: set<string> := {"sole_proprietor", "llc", "corporation", "partnership", "other"}

  /** `^\d{2}-\d{2}$` (month and day of the fiscal year end). */
  const FiscalYearEndPattern: seq<Atom> := [Exactly(2, IsDigit), Lit('-'), Exactly(2, IsDigit)]

  predicate IsFiscalYearEnd(s: string) {
    Matches(s, FiscalYearEndPattern)
  }

  /** The pattern accepts exactly two digits, a dash and two digits. */
  lemma FiscalYearEndShape(s: string)
    ensures IsFiscalYearEnd(s) <==>
              |s| == 5 && IsDigit(s[0]) && IsDigit(s[1]) && s[2] == '-' && IsDigit(s[3]) && IsDigit(s[4])
  {
    var d2 := Exactly(2, IsDigit);
    var dash := Lit('-');
    ExpandCons(d2, []);
    ExpandCons(dash, [d2]);
    ExpandCons(d2, [dash, d2]);
    assert [dash] + [d2] == [dash, d2];
    assert [d2] + [dash, d2] == FiscalYearEndPattern;
    var e := Expand(FiscalYearEndPattern);
    assert e == Repeat(IsDigit, 2) + Repeat(dash.cls, 1) + Repeat(IsDigit, 2);
    MatchesPointwise(s, FiscalYearEndPattern);
    if |s| == 5 {
      assert e[0] == IsDigit && e[1] == IsDigit && e[3] == IsDigit && e[4] == IsDigit;
      assert e[2] == dash.cls;
    }
  }

  datatype ProfileInput = ProfileInput(name: string, businessType: Option<string>, taxId: Option<string>,
                                       countryCode: Option<string>, fiscalYearEnd: Option<string>)

  /** The profile schema. */
  predicate ValidProfile(input: ProfileInput) {
    && input.name != ""
    && (input.businessType.Some? ==> input.businessType.value in BusinessTypes)
    && (input.countryCode.Some? ==> |input.countryCode.value| == 2)
    && (input.fiscalYearEnd.Some? ==> IsFiscalYearEnd(input.fiscalYearEnd.value))
  }

  /** The name is replaced; each other field only when supplied. */
  function ApplyProfile(c: Company, input: ProfileInput): (r: Company)
    ensures r.name == input.name && r.currency == c.currency && r.settings == c.settings
    ensures r.businessType == (if input.businessType.Some? then input.businessType else c.businessType)
    ensures r.taxId == (if input.taxId.Some? then input.taxId else c.taxId)
    ensures r.countryCode == (if input.countryCode.Some? then input.countryCode else c.countryCode)
    ensures r.fiscalYearEnd == (if input.fiscalYearEnd.Some? then input.fiscalYearEnd else c.fiscalYearEnd)
  {
    c.(name := input.name,
       businessType := if input.businessType.Some? then input.businessType else c.businessType,
       taxId := if input.taxId.Some? then input.taxId else c.taxId,
       countryCode := if input.countryCode.Some? then input.countryCode else c.countryCode,
       fiscalYearEnd := if input.fiscalYearEnd.Some? then input.fiscalYearEnd else c.fiscalYearEnd)
  }

  /** `company.updateProfile`. */
  method UpdateProfile(db: Db, caller: Caller, input: ProfileInput) returns (r: Result<Company>)
    requires caller.companyId in db.companies
    modifies db`companies
    ensures !ValidProfile(input) ==> r == Err(BadRequest)
    ensures ValidProfile(input) && !IsOwnerOrAdmin(caller.role) ==> r == Err(Forbidden)
    ensures r.Err? ==> db.companies == old(db.companies)
    ensures r.Ok? <==> ValidProfile(input) && IsOwnerOrAdmin(caller.role)
    ensures r.Ok? ==> r.value == ApplyProfile(old(db.companies)[caller.companyId], input)
                      && db.companies == old(db.companies)[caller.companyId := r.value]
  {
    if !ValidProfile(input) {
      return Err(BadRequest);
    }
    if !IsOwnerOrAdmin(caller.role) {
      return Err(Forbidden);
    }
    var updated := ApplyProfile(db.companies[caller.companyId], input);
    db.companies := db.companies[caller.companyId := updated];
    r := Ok(updated);
  }

  // ---------------------------------------------------------------------
  // updateSettings
  // ---------------------------------------------------------------------

  datatype AddressInput = AddressInput(street: Option<string>, city: Option<string>, state: Option<string>,
                                       postalCode: Option<string>, country: Option<string>)

  /**
   * The keys of the settings schema; keys outside it are stripped by the
   * parser and so never reach the merge.
   */
  datatype SettingsInput = SettingsInput(
    invoicePrefix: Option<string>, invoiceNumberStart: Option<int>, defaultPaymentTermsDays: Option<int>,
    defaultDueDate: Option<int>, logoUrl: Option<string>, primaryColor: Option<string>,
    accentColor: Option<string>, invoiceFooter: Option<string>, invoiceNotes: Option<string>,
    invoiceTerms: Option<string>, emailFromName: Option<string>, emailReplyTo: Option<string>,
    defaultTaxRate: Option<real>, taxLabel: Option<string>, taxNumber: Option<string>,
    currency: Option<string>, address: Option<AddressInput>)

  /** `^#[0-9A-F]{6}$` with the `i` flag. */
  predicate IsColor6(s: string) {
    Matches(s, HexColorLong)
  }

  predicate PositiveInt(n: Option<int>) {
    n.Some? ==> n.value > 0
  }

  /**
   * The settings schema: positive integers, colours of six hex digits, a tax
   * rate in [0, 100], a three-letter currency. The logo must be a URL and the
   * reply-to address an email: the empty string is neither; other URL and
   * email syntax is not part of this model.
   */
  predicate ValidSettings(input: SettingsInput) {
    && PositiveInt(input.invoiceNumberStart)
    && PositiveInt(input.defaultPaymentTermsDays)
    && PositiveInt(input.defaultDueDate)
    && input.logoUrl != Some("")
    && (input.primaryColor.Some? ==> IsColor6(input.primaryColor.value))
    && (input.accentColor.Some? ==> IsColor6(input.accentColor.value))
    && input.emailReplyTo != Some("")
    && (input.defaultTaxRate.Some? ==> 0.0 <= input.defaultTaxRate.value <= 100.0)
    && (input.currency.Some? ==> |input.currency.value| == 3)
  }

  /** `m` with `key` set when a value is supplied. */
  function Put<V>(m: map<string, V>, key: string, value: Option<V>): (r: map<string, V>)
    ensures value.Some? ==> r == m[key := value.value]
    ensures value.None? ==> r == m
  {
    if value.Some? then m[key := value.value] else m
  }

  function StrValue(s: Option<string>): Option<SettingValue> {
    if s.Some? then Some(Str(s.value)) else None
  }

  function NumValue(n: Option<int>): Option<SettingValue> {
    if n.Some? then Some(Num(n.value as real)) else None
  }

  function AddressFields(a: AddressInput): map<string, string> {
    Put(Put(Put(Put(Put(map[], "street", a.street), "city", a.city), "state", a.state), "postalCode", a.postalCode),
        "country", a.country)
  }

  /** The parsed input as a settings object: only the keys that were supplied. */
  function Supplied(input: SettingsInput): Settings {
    var m: Settings := map[];
    var m := Put(m, "invoicePrefix", StrValue(input.invoicePrefix));
    var m := Put(m, "invoiceNumberStart", NumValue(input.invoiceNumberStart));
    var m := Put(m, "defaultPaymentTermsDays", NumValue(input.defaultPaymentTermsDays));
    var m := Put(m, "defaultDueDate", NumValue(input.defaultDueDate));
    var m := Put(m, "logoUrl", StrValue(input.logoUrl));
    var m := Put(m, "primaryColor", StrValue(input.primaryColor));
    var m := Put(m, "accentColor", StrValue(input.accentColor));
    var m := Put(m, "invoiceFooter", StrValue(input.invoiceFooter));
    var m := Put(m, "invoiceNotes", StrValue(input.invoiceNotes));
    var m := Put(m, "invoiceTerms", StrValue(input.invoiceTerms));
    var m := Put(m, "emailFromName", StrValue(input.emailFromName));
    var m := Put(m, "emailReplyTo", StrValue(input.emailReplyTo));
    var m := Put(m, "defaultTaxRate", if input.defaultTaxRate.Some? then Some(Num(input.defaultTaxRate.value)) else None);
    var m := Put(m, "taxLabel", StrValue(input.taxLabel));
    var m := Put(m, "taxNumber", StrValue(input.taxNumber));
    var m := Put(m, "currency", StrValue(input.currency));
    Put(m, "address", if input.address.Some? then Some(AddressValue(AddressFields(input.address.value))) else None)
  }

  /**
   * `{ ...currentSettings, ...input }` with missing settings read as `{}`:
   * every supplied key takes its new value, every other key keeps its old
   * one, and no other key appears.
   */
  function MergeSettings(current: Option<Settings>, supplied: Settings): (merged: Settings)
    ensures merged.Keys == current.GetOr(map[]).Keys + supplied.Keys
    ensures forall k :: k in supplied ==> merged[k] == supplied[k]
    ensures forall k :: k in current.GetOr(map[]) && k !in supplied ==> merged[k] == current.GetOr(map[])[k]
  {
    current.GetOr(map[]) + supplied
  }

  /** Saving the same settings twice changes nothing the second time. */
  lemma MergeIdempotent(current: Option<Settings>, supplied: Settings)
    ensures MergeSettings(Some(MergeSettings(current, supplied)), supplied) == MergeSettings(current, supplied)
  {
    var once := MergeSettings(current, supplied);
    var twice := MergeSettings(Some(once), supplied);
    assert twice.Keys == once.Keys;
    forall k | k in twice ensures twice[k] == once[k] {
    }
  }

  /** A currency supplied in the settings also replaces the currency column (`if (input.currency)`). */
  function ApplySettings(c: Company, input: SettingsInput): (r: Company)
    ensures r.settings == Some(MergeSettings(c.settings, Supplied(input)))
    ensures r.currency == (if input.currency.Some? && input.currency.value != "" then input.currency.value else c.currency)
    ensures r.name == c.name && r.businessType == c.businessType && r.taxId == c.taxId
    ensures r.countryCode == c.countryCode && r.fiscalYearEnd == c.fiscalYearEnd
  {
    var merged := MergeSettings(c.settings, Supplied(input));
    if input.currency.Some? && input.currency.value != "" then c.(settings := Some(merged), currency := input.currency.value)
    else c.(settings := Some(merged))
  }

  /** `company.updateSettings`. */
  method UpdateSettings(db: Db, caller: Caller, input: SettingsInput) returns (r: Result<Company>)
    requires caller.companyId in db.companies
    modifies db`companies
    ensures !ValidSettings(input) ==> r == Err(BadRequest)
    ensures ValidSettings(input) && !IsOwnerOrAdmin(caller.role) ==> r == Err(Forbidden)
    ensures r.Err? ==> db.companies == old(db.companies)
    ensures r.Ok? <==> ValidSettings(input) && IsOwnerOrAdmin(caller.role)
    ensures r.Ok? ==> r.value == ApplySettings(old(db.companies)[caller.companyId], input)
                      && db.companies == old(db.companies)[caller.companyId := r.value]
  {
    if !ValidSettings(input) {
      return Err(BadRequest);
    }
    if !IsOwnerOrAdmin(caller.role) {
      return Err(Forbidden);
    }
    var updated := ApplySettings(db.companies[caller.companyId], input);
    db.companies := db.companies[caller.companyId := updated];
    r := Ok(updated);
  }

  /** The currency column changes only when a currency is supplied, and then to it. */
  lemma CurrencyFollowsInput(c: Company, input: SettingsInput)
    requires ValidSettings(input)
    ensures ApplySettings(c, input).currency != c.currency ==> input.currency == Some(ApplySettings(c, input).currency)
    ensures input.currency.Some? ==> ApplySettings(c, input).currency == input.currency.value
    ensures input.currency.Some? ==> ApplySettings(c, input).settings.value["currency"] == Str(input.currency.value)
  {
  }
}
