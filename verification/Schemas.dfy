/** The strict extraction schemas: invoice.v1 and job_posting.v1, and the checks that run after parse. */
module Schemas {
  import opened Text

  datatype Option<+T> = None | Some(value: T)

  datatype DocType = InvoiceDoc | JobDoc

  // quantity and unit price take part in no check, so a line item keeps what is compared.
  datatype LineItem = LineItem(description: string, amountMinor: int)

  datatype Invoice = Invoice(
    invoiceNumber: string,
    currency: string,
    subtotalMinor: int,
    taxMinor: Option<int>,
    totalMinor: int,
    vendorName: string,
    lineItems: Option<seq<LineItem>>)

  datatype JobPosting = JobPosting(
    title: string,
    company: Option<string>,
    location: Option<string>,
    salaryMin: Option<int>,
    salaryMax: Option<int>,
    salaryCurrency: Option<string>)

  datatype Record = InvoiceRecord(invoice: Invoice) | JobRecord(job: JobPosting)

  datatype FieldName = Title | Company | Location | SalaryMin | SalaryMax

  // What a ValidationError reports (llm/pipeline.py:54-62): one of these schemas' own complaints, or
  // the parser's (where, what kind, and the message).
  datatype ErrorDetail =
    | TotalMismatch | EmptyLineItems | SubtotalMismatch
    | BlankField(field: FieldName) | NegativeField(field: FieldName)
    | CurrencyMissing | SalaryReversed
    | ParserError(loc: seq<string>, kind: string, msg: string)
  datatype ErrorSummary = Errors(details: seq<ErrorDetail>)

  // ---------- the relations a consumer of a record relies on ----------

  function SumAmounts(items: seq<LineItem>): int {
    if items == [] then 0 else SumAmounts(items[..|items| - 1]) + items[|items| - 1].amountMinor
  }

  lemma {:induction false} SumAmountsAdds(a: seq<LineItem>, b: seq<LineItem>)
    ensures SumAmounts(a + b) == SumAmounts(a) + SumAmounts(b)
    ensures forall item :: SumAmounts([item]) == item.amountMinor
    ensures SumAmounts([]) == 0
  {
    assert forall item: LineItem :: [item][..0] == [];
    if b == [] {
      assert a + b == a;
    } else {
      assert (a + b)[..|a + b| - 1] == a + b[..|b| - 1];
      SumAmountsAdds(a, b[..|b| - 1]);
    }
  }

  ghost predicate InvoiceConsistent(i: Invoice) {
    && (i.taxMinor.Some? ==> i.totalMinor == i.subtotalMinor + i.taxMinor.value)
    && (i.lineItems.Some? ==> |i.lineItems.value| > 0 && SumAmounts(i.lineItems.value) == i.subtotalMinor)
  }

  ghost predicate NonBlank(s: Option<string>) {
    s.Some? ==> exists k :: 0 <= k < |s.value| && !IsSpace(s.value[k])
  }

  ghost predicate JobConsistent(j: JobPosting) {
    && NonBlank(Some(j.title)) && NonBlank(j.company) && NonBlank(j.location)
    && (j.salaryMin.Some? ==> 0 <= j.salaryMin.value)
    && (j.salaryMax.Some? ==> 0 <= j.salaryMax.value)
    && (j.salaryMin.Some? || j.salaryMax.Some? ==> j.salaryCurrency.Some?)
    && (j.salaryMin.Some? && j.salaryMax.Some? ==> j.salaryMin.value <= j.salaryMax.value)
  }

  ghost predicate RecordOk(r: Record) {
    match r
    case InvoiceRecord(i) => InvoiceConsistent(i)
    case JobRecord(j) => JobConsistent(j)
  }

  function DocTypeOf(r: Record): DocType {
    if r.InvoiceRecord? then InvoiceDoc else JobDoc
  }

  // ---------- the validators ----------

  // schemas/invoice_v1.py:48-73. The line amounts are summed in a loop there; the first failing test raises.
  method CheckTotals(i: Invoice) returns (errors: ErrorSummary)
    ensures errors == InvoiceErrors(i)
  {
    if i.taxMinor.Some? && i.totalMinor != i.subtotalMinor + i.taxMinor.value {
      return Errors([TotalMismatch]);
    }
    if i.lineItems.Some? {
      var items := i.lineItems.value;
      if |items| == 0 {
        return Errors([EmptyLineItems]);
      }
      var lineSum := 0;
      for n := 0 to |items|
        invariant lineSum == SumAmounts(items[..n])
      {
        assert items[..n + 1][..n] == items[..n];
        lineSum := lineSum + items[n].amountMinor;
      }
      assert items[..|items|] == items;
      if i.subtotalMinor != lineSum {
        return Errors([SubtotalMismatch]);
      }
    }
    return NO_ERRORS;
  }

  const NO_ERRORS := Errors([])

  function InvoiceErrors(i: Invoice): (errors: ErrorSummary)
    ensures errors == NO_ERRORS <==> InvoiceConsistent(i)
  {
    if i.taxMinor.Some? && i.totalMinor != i.subtotalMinor + i.taxMinor.value then
      Errors([TotalMismatch])
    else if i.lineItems.None? then
      NO_ERRORS
    else if i.lineItems.value == [] then
      Errors([EmptyLineItems])
    else if i.subtotalMinor != SumAmounts(i.lineItems.value) then
      Errors([SubtotalMismatch])
    else
      NO_ERRORS
  }

  function BlankErrors(field: FieldName, value: Option<string>): (errors: seq<ErrorDetail>)
    ensures errors == [] <==> NonBlank(value)
  {
    if value.Some? && Blank(value.value) then [BlankField(field)] else []
  }

  function NegativeErrors(field: FieldName, value: Option<int>): seq<ErrorDetail> {
    if value.Some? && value.value < 0 then [NegativeField(field)] else []
  }

  function SalaryErrors(j: JobPosting): seq<ErrorDetail> {
    if (j.salaryMin.Some? || j.salaryMax.Some?) && j.salaryCurrency.None? then
      [CurrencyMissing]
    else if j.salaryMin.Some? && j.salaryMax.Some? && j.salaryMax.value < j.salaryMin.value then
      [SalaryReversed]
    else
      []
  }

  ghost predicate FieldsPass(j: JobPosting) {
    && NonBlank(Some(j.title)) && NonBlank(j.company) && NonBlank(j.location)
    && (j.salaryMin.Some? ==> 0 <= j.salaryMin.value) && (j.salaryMax.Some? ==> 0 <= j.salaryMax.value)
  }

  function FieldErrors(j: JobPosting): (details: seq<ErrorDetail>)
    ensures details == [] <==> FieldsPass(j)
  {
    BlankErrors(Title, Some(j.title)) + BlankErrors(Company, j.company) + BlankErrors(Location, j.location) +
    NegativeErrors(SalaryMin, j.salaryMin) + NegativeErrors(SalaryMax, j.salaryMax)
  }

  // Field validators all report; the model validator runs only when every field passed.
  function JobErrors(j: JobPosting): (errors: ErrorSummary)
    ensures errors == NO_ERRORS <==> JobConsistent(j)
  {
    var fields := FieldErrors(j);
    Errors(if fields != [] then fields else SalaryErrors(j))
  }

  /** Which complaint is made: of the whole-record tests, the first that fails. */
  lemma InvoiceErrorsExact(i: Invoice)
    ensures var errors := InvoiceErrors(i);
            && (TotalMismatch in errors.details <==>
                  i.taxMinor.Some? && i.totalMinor != i.subtotalMinor + i.taxMinor.value)
            && (EmptyLineItems in errors.details <==> TotalMismatch !in errors.details && i.lineItems == Some([]))
            && (SubtotalMismatch in errors.details <==>
                  && TotalMismatch !in errors.details && i.lineItems.Some? && i.lineItems.value != []
                  && SumAmounts(i.lineItems.value) != i.subtotalMinor)
  {
  }

  lemma FieldErrorsExact(j: JobPosting)
    ensures var details := FieldErrors(j);
            && (BlankField(Title) in details <==> !NonBlank(Some(j.title)))
            && (BlankField(Company) in details <==> !NonBlank(j.company))
            && (BlankField(Location) in details <==> !NonBlank(j.location))
            && (NegativeField(SalaryMin) in details <==> j.salaryMin.Some? && j.salaryMin.value < 0)
            && (NegativeField(SalaryMax) in details <==> j.salaryMax.Some? && j.salaryMax.value < 0)
            && CurrencyMissing !in details && SalaryReversed !in details
  {
    var a, b := BlankErrors(Title, Some(j.title)), BlankErrors(Company, j.company);
    var d := BlankErrors(Location, j.location);
    var e, f := NegativeErrors(SalaryMin, j.salaryMin), NegativeErrors(SalaryMax, j.salaryMax);
    forall x ensures x in FieldErrors(j) <==> x in a || x in b || x in d || x in e || x in f {
      assert FieldErrors(j) == a + b + d + e + f;
    }
  }

  /** Every failing field is named; the salary is complained of only when every field passes. */
  lemma JobErrorsExact(j: JobPosting)
    ensures var details := JobErrors(j).details;
            && (BlankField(Title) in details <==> !NonBlank(Some(j.title)))
            && (BlankField(Company) in details <==> !NonBlank(j.company))
            && (BlankField(Location) in details <==> !NonBlank(j.location))
            && (NegativeField(SalaryMin) in details <==> j.salaryMin.Some? && j.salaryMin.value < 0)
            && (NegativeField(SalaryMax) in details <==> j.salaryMax.Some? && j.salaryMax.value < 0)
            && (CurrencyMissing in details <==>
                  FieldsPass(j) && (j.salaryMin.Some? || j.salaryMax.Some?) && j.salaryCurrency.None?)
            && (SalaryReversed in details <==>
                  && FieldsPass(j) && CurrencyMissing !in details
                  && j.salaryMin.Some? && j.salaryMax.Some? && j.salaryMax.value < j.salaryMin.value)
  {
    FieldErrorsExact(j);
    assert FieldErrors(j) == [] <==> FieldsPass(j);
    if FieldsPass(j) {
      assert JobErrors(j).details == SalaryErrors(j);
    }
  }

  function RecordErrors(r: Record): (errors: ErrorSummary)
    ensures errors == NO_ERRORS <==> RecordOk(r)
  {
    match r
    case InvoiceRecord(i) => InvoiceErrors(i)
    case JobRecord(j) => JobErrors(j)
  }

  // ---------- model_validate_json ----------

  // Parsing JSON text into the typed fields is a library's work: an uninterpreted outcome.
  datatype Parsed = Shaped(record: Record) | Misshaped(errors: ErrorSummary)
  datatype Validation = Valid(record: Record) | Invalid(errors: ErrorSummary)

  // The record a schema's parser yields has that schema's type.
  function Validate(decode: (DocType, string) -> Parsed, doc: DocType, text: string): (v: Validation)
    ensures v.Valid? ==> RecordOk(v.record) && (v.record.InvoiceRecord? <==> doc.InvoiceDoc?)
    // Exactly the well-shaped, consistent records are accepted, and as they were parsed.
    ensures forall r :: v == Valid(r) <==>
              decode(doc, text) == Shaped(r) && (r.InvoiceRecord? <==> doc.InvoiceDoc?) && RecordOk(r)
    ensures forall e :: decode(doc, text) == Misshaped(e) ==> v == Invalid(e)
  {
    match decode(doc, text)
    case Misshaped(errors) => Invalid(errors)
    case Shaped(r) =>
      if DocTypeOf(r) != doc then Invalid(Errors([ParserError([], [], [])]))
      else if RecordErrors(r) != NO_ERRORS then Invalid(RecordErrors(r))
      else Valid(r)
  }

  /** A validator is strict when every record it accepts has the schema asked for and satisfies that
      schema's relations. */
  ghost predicate Strict(validate: (DocType, string) -> Validation) {
    forall doc, text :: validate(doc, text).Valid? ==>
      DocTypeOf(validate(doc, text).record) == doc && RecordOk(validate(doc, text).record)
  }

  // Whatever the parser does, parsing followed by the schema's checks is strict.
  lemma ValidateIsStrict(decode: (DocType, string) -> Parsed)
    ensures Strict((doc, text) => Validate(decode, doc, text))
  {
  }
}
