/**
 * lib/validations/invoice.ts: the invoice line and form schemas, the line and
 * invoice total arithmetic, and invoice-number generation.
 */
module InvoiceValidation {
  import opened Common
  import opened Text

  /** A line as the form submits it; `taxRate` may be omitted. */
  datatype LineInput = LineInput(description: string, quantity: real, unitPrice: real, taxRate: Option<real>)

  /** A line after schema parsing (0.20 is a 20% tax rate). */
  datatype InvoiceLine = InvoiceLine(description: string, quantity: real, unitPrice: real, taxRate: real)

  /** The bounds `invoiceLineSchema` enforces. */
  predicate ValidLine(l: InvoiceLine) {
    |l.description| >= 1 && l.quantity >= 0.01 && l.unitPrice >= 0.0 && 0.0 <= l.taxRate <= 1.0
  }

  predicate ValidLines(lines: seq<InvoiceLine>) {
    forall i :: 0 <= i < |lines| ==> ValidLine(lines[i])
  }

  /** `invoiceLineSchema.parse`: the tax rate defaults to 0, out-of-range fields are rejected. */
  function ParseLine(input: LineInput): (r: Result<InvoiceLine>)
    ensures r.Ok? <==> ValidLine(InvoiceLine(input.description, input.quantity, input.unitPrice, input.taxRate.GetOr(0.0)))
    ensures r.Ok? ==> r.value.description == input.description && r.value.quantity == input.quantity
                      && r.value.unitPrice == input.unitPrice
    ensures r.Ok? ==> r.value.taxRate == (if input.taxRate.Some? then input.taxRate.value else 0.0)
    ensures r.Err? ==> r.error == BadRequest
  {
    var line := InvoiceLine(input.description, input.quantity, input.unitPrice, input.taxRate.GetOr(0.0));
    if ValidLine(line) then Ok(line) else Err(BadRequest)
  }

  function ParseLines(inputs: seq<LineInput>): (r: Result<seq<InvoiceLine>>)
    ensures r.Ok? ==> |r.value| == |inputs| && ValidLines(r.value)
    ensures r.Ok? <==> forall i :: 0 <= i < |inputs| ==> ParseLine(inputs[i]).Ok?
    ensures r.Ok? ==> forall i :: 0 <= i < |inputs| ==> ParseLine(inputs[i]) == Ok(r.value[i])
    ensures r.Err? ==> r.error == BadRequest
  {
    if inputs == [] then Ok([])
    else
      match ParseLine(inputs[0])
      case Err(e) => Err(e)
      case Ok(line) =>
        match ParseLines(inputs[1..])
        case Err(e) => Err(e)
        case Ok(rest) => Ok([line] + rest)
  }

  datatype InvoiceForm = InvoiceForm(
    customerName: string, customerEmail: Option<string>, invoiceDate: string, dueDate: string,
    lines: seq<LineInput>, notes: Option<string>, terms: Option<string>, currency: Option<string>)

  datatype InvoiceFormData = InvoiceFormData(
    customerName: string, customerEmail: Option<string>, invoiceDate: string, dueDate: string,
    lines: seq<InvoiceLine>, notes: Option<string>, terms: Option<string>, currency: string)

  /** `invoiceFormSchema.parse`: required fields, at least one valid line, currency defaulting to USD. */
  function ParseForm(form: InvoiceForm): (r: Result<InvoiceFormData>)
    ensures r.Ok? <==> form.customerName != "" && form.invoiceDate != "" && form.dueDate != ""
                       && |form.lines| >= 1 && ParseLines(form.lines).Ok?
    ensures r.Ok? ==> r.value.lines == ParseLines(form.lines).value
    ensures r.Ok? ==> r.value.customerName == form.customerName && r.value.customerEmail == form.customerEmail
                      && r.value.invoiceDate == form.invoiceDate && r.value.dueDate == form.dueDate
                      && r.value.notes == form.notes && r.value.terms == form.terms
    ensures r.Ok? ==> |r.value.lines| >= 1 && ValidLines(r.value.lines)
    ensures r.Ok? ==> r.value.customerName != "" && r.value.invoiceDate != "" && r.value.dueDate != ""
    ensures r.Ok? ==> r.value.currency == form.currency.GetOr("USD")
    ensures form.lines == [] || form.customerName == "" ==> r == Err(BadRequest)
  {
    if form.customerName == "" || form.invoiceDate == "" || form.dueDate == "" || |form.lines| < 1 then
      Err(BadRequest)
    else
      match ParseLines(form.lines)
      case Err(e) => Err(e)
      case Ok(lines) =>
        Ok(InvoiceFormData(form.customerName, form.customerEmail, form.invoiceDate, form.dueDate,
                           lines, form.notes, form.terms, form.currency.GetOr("USD")))
  }

  /** The form a user would submit for already parsed data: every tax rate and the currency given. */
  function LineInputOf(l: InvoiceLine): LineInput {
    LineInput(l.description, l.quantity, l.unitPrice, Some(l.taxRate))
  }

  function LineInputsOf(lines: seq<InvoiceLine>): (r: seq<LineInput>)
    ensures |r| == |lines|
    ensures forall i :: 0 <= i < |lines| ==> r[i] == LineInputOf(lines[i])
  {
    if lines == [] then [] else [LineInputOf(lines[0])] + LineInputsOf(lines[1..])
  }

  function FormOf(d: InvoiceFormData): InvoiceForm {
    InvoiceForm(d.customerName, d.customerEmail, d.invoiceDate, d.dueDate,
                LineInputsOf(d.lines), d.notes, d.terms, Some(d.currency))
  }

  /** Parsing the inputs of valid lines gives those lines back. */
  lemma {:induction false} ParseLinesRoundTrip(lines: seq<InvoiceLine>)
    requires ValidLines(lines)
    ensures ParseLines(LineInputsOf(lines)) == Ok(lines)
  {
    if lines != [] {
      var inputs := LineInputsOf(lines);
      assert inputs[1..] == LineInputsOf(lines[1..]);
      ParseLinesRoundTrip(lines[1..]);
      assert ParseLine(inputs[0]) == Ok(lines[0]);
      assert lines == [lines[0]] + lines[1..];
    }
  }

  /**
   * `invoiceFormSchema` accepts exactly what it produces: data with the
   * required fields and at least one valid line parses back to itself.
   */
  lemma ParseFormRoundTrip(d: InvoiceFormData)
    requires d.customerName != "" && d.invoiceDate != "" && d.dueDate != ""
    requires |d.lines| >= 1 && ValidLines(d.lines)
    ensures ParseForm(FormOf(d)) == Ok(d)
  {
    ParseLinesRoundTrip(d.lines);
  }

  // ---------------------------------------------------------------------
  // Totals
  // ---------------------------------------------------------------------

  function LineSubtotal(l: InvoiceLine): real {
    l.quantity * l.unitPrice
  }

  function LineTax(l: InvoiceLine): real {
    LineSubtotal(l) * l.taxRate
  }

  /** `calculateLineAmount`: the line's net amount plus its tax. */
  function CalculateLineAmount(l: InvoiceLine): (r: real)
    ensures r == LineSubtotal(l) * (1.0 + l.taxRate)
    ensures ValidLine(l) ==> LineSubtotal(l) <= r <= 2.0 * LineSubtotal(l)
  {
    LineBounds(l);
    LineSubtotal(l) + LineTax(l)
  }

  lemma LineBounds(l: InvoiceLine)
    ensures ValidLine(l) ==> 0.0 <= LineTax(l) <= LineSubtotal(l)
  {
    if ValidLine(l) {
      var s := LineSubtotal(l);
      assert s >= 0.0 by {
        assert l.quantity > 0.0;
      }
      assert s * l.taxRate <= s * 1.0;
    }
  }

  /** Sum of `quantity * unitPrice` over the lines. */
  function Subtotal(lines: seq<InvoiceLine>): real {
    if lines == [] then 0.0 else LineSubtotal(lines[0]) + Subtotal(lines[1..])
  }

  /** Sum of `quantity * unitPrice * taxRate` over the lines. */
  function TaxTotal(lines: seq<InvoiceLine>): real {
    if lines == [] then 0.0 else LineTax(lines[0]) + TaxTotal(lines[1..])
  }

  /** Sum of `calculateLineAmount` over the lines. */
  function SumOfLineAmounts(lines: seq<InvoiceLine>): real {
    if lines == [] then 0.0 else CalculateLineAmount(lines[0]) + SumOfLineAmounts(lines[1..])
  }

  datatype InvoiceTotals = InvoiceTotals(subtotal: real, taxTotal: real, total: real)

  /** `calculateInvoiceTotals` before the `toFixed(2)` rounding. */
  function CalculateInvoiceTotals(lines: seq<InvoiceLine>): (r: InvoiceTotals)
    ensures r.total == r.subtotal + r.taxTotal
    ensures ValidLines(lines) ==> 0.0 <= r.taxTotal <= r.subtotal
  {
    TaxWithinSubtotal(lines);
    var subtotal := Subtotal(lines);
    var taxTotal := TaxTotal(lines);
    InvoiceTotals(subtotal, taxTotal, subtotal + taxTotal)
  }

  /** With rates in [0, 1] and non-negative prices, the tax never exceeds the net amount. */
  lemma {:induction false} TaxWithinSubtotal(lines: seq<InvoiceLine>)
    ensures ValidLines(lines) ==> 0.0 <= TaxTotal(lines) <= Subtotal(lines)
  {
    if lines != [] && ValidLines(lines) {
      LineBounds(lines[0]);
      assert ValidLines(lines[1..]) by {
        forall i | 0 <= i < |lines| - 1 ensures ValidLine(lines[1..][i]) {
          assert lines[1..][i] == lines[i + 1];
        }
      }
      TaxWithinSubtotal(lines[1..]);
    }
  }

  /** Adding up the per-line amounts gives the invoice total. */
  lemma {:induction false} LineAmountsAddUpToTotal(lines: seq<InvoiceLine>)
    ensures SumOfLineAmounts(lines) == CalculateInvoiceTotals(lines).total
  {
    if lines != [] {
      LineAmountsAddUpToTotal(lines[1..]);
    }
  }

  // ---------------------------------------------------------------------
  // Invoice numbers
  // ---------------------------------------------------------------------

  /** `INV-<year>-` */
  function InvoicePrefix(year: nat): string {
    "INV-" + NatToString(year) + "-"
  }

  /** The third `-`-separated field of `s`, or "0" when it is missing or empty (`split("-")[2] || "0"`). */
  function ThirdField(s: string): string {
    var fields := Split(s, '-');
    if |fields| > 2 && fields[2] != "" then fields[2] else "0"
  }

  /** `(currentNum + 1).toString()`: NaN stays NaN. */
  function SuccessorText(n: JsNumber): string {
    match n
    case NaN => "NaN"
    case Int(i) => IntToString(i + 1)
  }

  /**
   * `generateInvoiceNumber(lastNumber)` in calendar year `year`: restart at 001
   * unless the last number carries this year's prefix, otherwise add one to its
   * third field and pad it to three digits.
   */
  function GenerateInvoiceNumber(lastNumber: Option<string>, year: nat): (r: string)
    ensures StartsWith(r, InvoicePrefix(year))
    ensures lastNumber.None? || !StartsWith(lastNumber.value, InvoicePrefix(year)) ==> r == InvoicePrefix(year) + "001"
  {
    var prefix := InvoicePrefix(year);
    if lastNumber.None? || lastNumber.value == "" || !StartsWith(lastNumber.value, prefix) then
      prefix + "001"
    else
      var currentNum := ParseInt(ThirdField(lastNumber.value));
      prefix + PadStart(SuccessorText(currentNum), 3, '0')
  }

  /** The prefix splits into its two fields. */
  lemma SplitAfterPrefix(year: nat, rest: string)
    ensures Split(InvoicePrefix(year) + rest, '-') == ["INV", NatToString(year)] + Split(rest, '-')
  {
    var y := NatToString(year);
    assert '-' !in y;
    assert InvoicePrefix(year) + rest == "INV" + ['-'] + (y + ['-'] + rest);
    SplitFront("INV", '-', y + ['-'] + rest);
    SplitFront(y, '-', rest);
  }

  lemma ThirdFieldOfSplit(s: string, first: string, second: string, tail: seq<string>)
    requires Split(s, '-') == [first, second] + tail
    requires tail != [] && tail[0] != ""
    ensures ThirdField(s) == tail[0]
  {
    assert Split(s, '-')[2] == tail[0];
  }

  /** The third field of a number with this year's prefix is its counter, up to the next `-`. */
  lemma ThirdFieldAfterPrefix(year: nat, counter: string, suffix: string)
    requires '-' !in counter && counter != ""
    requires suffix == "" || suffix[0] == '-'
    ensures ThirdField(InvoicePrefix(year) + counter + suffix) == counter
  {
    var p := InvoicePrefix(year);
    var rest := counter + suffix;
    var tail := Split(rest, '-');
    assert tail[0] == counter by {
      if suffix == "" {
        assert rest == counter;
      } else {
        assert rest == counter + ['-'] + suffix[1..];
        SplitFront(counter, '-', suffix[1..]);
      }
    }
    SplitAfterPrefix(year, rest);
    assert p + counter + suffix == p + rest;
    ThirdFieldOfSplit(p + rest, "INV", NatToString(year), tail);
  }

  /** A last number with this year's prefix is continued from its counter field. */
  lemma ContinuesFromCounter(last: string, year: nat)
    requires StartsWith(last, InvoicePrefix(year))
    ensures GenerateInvoiceNumber(Some(last), year)
            == InvoicePrefix(year) + PadStart(SuccessorText(ParseInt(ThirdField(last))), 3, '0')
  {
    assert last != "";
  }

  /** `INV-<year>-<n>` with the counter zero-padded to three digits, as generated numbers look. */
  function PaddedNumber(year: nat, n: nat): string {
    InvoicePrefix(year) + PadStart(NatToString(n), 3, '0')
  }

  /** The counter field of the padded number with counter m reads back as m. */
  lemma PaddedCounterReadsBack(year: nat, m: nat)
    ensures var field := PadStart(NatToString(m), 3, '0');
            && ThirdField(PaddedNumber(year, m)) == field
            && AllDigits(field) && ParseDigits(field) == m
  {
    var field := PadStart(NatToString(m), 3, '0');
    ParseZeroPadded(NatToString(m), 3);
    ParseNatToString(m);
    assert '-' !in field;
    ThirdFieldAfterPrefix(year, field, "");
    assert InvoicePrefix(year) + field + "" == PaddedNumber(year, m);
  }

  /**
   * Numbering continues: after a number with this year's prefix whose third
   * field is the numeral n comes the padded number with counter n + 1, whose
   * counter field reads back as n + 1.
   */
  lemma NextNumberIncrements(year: nat, last: string, counter: string)
    requires StartsWith(last, InvoicePrefix(year))
    requires AllDigits(counter) && counter != "" && ThirdField(last) == counter
    ensures var next := GenerateInvoiceNumber(Some(last), year);
            var n := ParseDigits(counter);
            && next == PaddedNumber(year, n + 1)
            && AllDigits(ThirdField(next))
            && ParseDigits(ThirdField(next)) == n + 1
  {
    ParseIntNumeral(counter);
    ContinuesFromCounter(last, year);
    PaddedCounterReadsBack(year, ParseDigits(counter) + 1);
  }

  /**
   * Generated numbers count up one at a time: after the padded number with
   * counter n comes the padded number with counter n + 1.
   */
  lemma NumbersAdvanceOneAtATime(year: nat, n: nat)
    ensures GenerateInvoiceNumber(Some(PaddedNumber(year, n)), year) == PaddedNumber(year, n + 1)
  {
    var last := PaddedNumber(year, n);
    var field := PadStart(NatToString(n), 3, '0');
    assert StartsWith(last, InvoicePrefix(year)) by {
      assert last[..|InvoicePrefix(year)|] == InvoicePrefix(year);
    }
    PaddedCounterReadsBack(year, n);
    NextNumberIncrements(year, last, field);
  }

  /** `INV-<year>-<n>` followed by nothing or by further `-` fields has this year's prefix and counter n. */
  lemma CounterOfNumber(year: nat, counter: string, suffix: string)
    requires AllDigits(counter) && counter != ""
    requires suffix == "" || suffix[0] == '-'
    ensures var last := InvoicePrefix(year) + counter + suffix;
            StartsWith(last, InvoicePrefix(year)) && ThirdField(last) == counter
  {
    var p := InvoicePrefix(year);
    var last := p + counter + suffix;
    assert last[..|p|] == p;
    assert '-' !in counter;
    ThirdFieldAfterPrefix(year, counter, suffix);
  }

  /** A counter field that is not a number yields the literal `INV-<year>-NaN`. */
  lemma NonNumericCounter(year: nat, counter: string)
    requires counter != "" && '-' !in counter
    requires !IsJsWhitespace(counter[0]) && !IsDigit(counter[0]) && counter[0] != '+'
    ensures GenerateInvoiceNumber(Some(InvoicePrefix(year) + counter), year) == InvoicePrefix(year) + "NaN"
  {
    var p := InvoicePrefix(year);
    var last := p + counter;
    assert last[..|p|] == p;
    assert p + counter + "" == last;
    ThirdFieldAfterPrefix(year, counter, "");
    ParseIntNotANumber(counter);
  }
}
