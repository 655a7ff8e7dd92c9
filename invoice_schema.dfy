/**
 * The invoice validation schema: the rules of `InvoiceSchema` and of its two
 * variants `CreateInvoice` (without `id` and `date`) and `UpdateInvoice`
 * (without `date`). Every field is checked on its own and every failing field
 * is reported, each under its own key, as the schema's flattened field errors.
 */
module InvoiceSchema {
  import opened Wrappers
  import opened WebForm

  /** The result of JavaScript's `Number(x)`, which `z.coerce.number()` applies first. */
  datatype JsNumber = NaN | Num(value: real)

  /**
   * How JavaScript reads a non-empty string as a number (its numeric-literal
   * grammar, with surrounding white space ignored); a parameter of the model.
   */
  type NumberReader = string -> JsNumber

  /** `Number(x)` of a raw form value: `null` and `""` give 0, a file gives NaN. */
  function CoerceNumber(v: Option<Entry>, read: NumberReader): (n: JsNumber)
    ensures v.None? || v == Some(Text("")) ==> n == Num(0.0)
    ensures v == Some(Blob) ==> n.NaN?
    ensures n.NaN? ==> v == Some(Blob) || (v.Some? && v.value.Text? && v.value.text != "" && read(v.value.text).NaN?)
    ensures v.Some? && v.value.Text? && v.value.text != "" ==> n == read(v.value.text)
  {
    match v
    case None => Num(0.0)
    case Some(Blob) => NaN
    case Some(Text(s)) => if s == "" then Num(0.0) else read(s)
  }

  /** The two values of the `status` enumeration. */
  datatype InvoiceStatus = Pending | Paid

  /** The literal a status is written as in forms and in the `status` column. */
  function StatusText(s: InvoiceStatus): string
  {
    match s
    case Pending => "pending"
    case Paid => "paid"
  }

  /** The schema's fields that can carry errors. */
  datatype Field = Id | CustomerId | Amount | Status

  /** The key a field's errors are reported under. */
  function FieldName(f: Field): string
  {
    match f
    case Id => "id"
    case CustomerId => "customerId"
    case Amount => "amount"
    case Status => "status"
  }

  /** The kinds of issue for which the schema keeps the library's own wording. */
  datatype IssueCode = InvalidType | InvalidEnumValue

  /** An error message: one of the schema's own texts, or the library's default for an issue. */
  datatype Message = Custom(text: string) | LibraryDefault(code: IssueCode)

  /** Flattened field errors: for each failing field, its messages in order. */
  type FieldErrors = map<Field, seq<Message>>

  const SelectCustomerMessage := "请选择一个用户"
  const AmountMessage := "请输入大于0美元的金额"
  const SelectStatusMessage := "请选择一个发票状态"

  // What makes each raw value acceptable, stated independently of the rules below.

  /** The raw value is present and is a string. */
  predicate IsString(v: Option<Entry>)
  {
    v.Some? && v.value.Text?
  }

  /** The raw value coerces to a number strictly above zero. */
  predicate IsPositiveAmount(v: Option<Entry>, read: NumberReader)
  {
    match CoerceNumber(v, read)
    case NaN => false
    case Num(x) => x > 0.0
  }

  /** The raw value is exactly one of the enumeration's literals. */
  predicate IsStatusLiteral(v: Option<Entry>)
  {
    v == Some(Text("pending")) || v == Some(Text("paid"))
  }

  // The rules, one per field, each with its own messages.

  /** `z.string()`, with `typeMessage` for anything that is not a string. */
  function ParseString(v: Option<Entry>, typeMessage: Message): Result<string, seq<Message>>
  {
    match v
    case Some(Text(s)) => Success(s)
    case _ => Failure([typeMessage])
  }

  /** `z.coerce.number().gt(0, …)`: NaN fails the type check, anything not above 0 fails the bound. */
  function ParseAmount(v: Option<Entry>, read: NumberReader): Result<real, seq<Message>>
  {
    match CoerceNumber(v, read)
    case NaN => Failure([LibraryDefault(InvalidType)])
    case Num(x) => if x > 0.0 then Success(x) else Failure([Custom(AmountMessage)])
  }

  /** `z.enum(['pending', 'paid'], …)`: a non-string fails the type check, another string the enumeration. */
  function ParseStatus(v: Option<Entry>): Result<InvoiceStatus, seq<Message>>
  {
    match v
    case Some(Text(s)) =>
      if s == "pending" then Success(Pending)
      else if s == "paid" then Success(Paid)
      else Failure([LibraryDefault(InvalidEnumValue)])
    case _ => Failure([Custom(SelectStatusMessage)])
  }

  /** Adds a failing field's messages to the errors gathered so far. */
  function Report<T>(f: Field, check: Result<T, seq<Message>>, errors: FieldErrors): FieldErrors
  {
    if check.Failure? then errors[f := check.error] else errors
  }

  /** The fields of a valid creation request. */
  datatype CreateData = CreateData(customerId: string, amount: real, status: InvoiceStatus)

  /** The fields of a valid update request. */
  datatype UpdateData = UpdateData(id: string, customerId: string, amount: real, status: InvoiceStatus)

  /** The fields of `CreateInvoice` whose raw values are not acceptable. */
  function InvalidCreateFields(customerId: Option<Entry>, amount: Option<Entry>, status: Option<Entry>,
                               read: NumberReader): set<Field>
  {
    (if IsString(customerId) then {} else {CustomerId}) +
    (if IsPositiveAmount(amount, read) then {} else {Amount}) +
    (if IsStatusLiteral(status) then {} else {Status})
  }

  /** The fields of `UpdateInvoice` whose raw values are not acceptable. */
  function InvalidUpdateFields(id: Option<Entry>, customerId: Option<Entry>, amount: Option<Entry>,
                               status: Option<Entry>, read: NumberReader): set<Field>
  {
    (if IsString(id) then {} else {Id}) + InvalidCreateFields(customerId, amount, status, read)
  }

  /** The messages the schema gives a failing field among `customerId`, `amount` and `status`. */
  function ExpectedMessages(f: Field, customerId: Option<Entry>, amount: Option<Entry>, status: Option<Entry>,
                            read: NumberReader): seq<Message>
  {
    match f
    case Id => [LibraryDefault(InvalidType)]
    case CustomerId => [Custom(SelectCustomerMessage)]
    case Amount => if CoerceNumber(amount, read).NaN? then [LibraryDefault(InvalidType)] else [Custom(AmountMessage)]
    case Status => if IsString(status) then [LibraryDefault(InvalidEnumValue)] else [Custom(SelectStatusMessage)]
  }

  /** `CreateInvoice.safeParse` of the raw `customerId`, `amount` and `status` values. */
  function ValidateCreate(customerId: Option<Entry>, amount: Option<Entry>, status: Option<Entry>,
                          read: NumberReader): (r: Result<CreateData, FieldErrors>)
    ensures r.Success? <==> InvalidCreateFields(customerId, amount, status, read) == {}
    ensures r.Failure? ==> r.error.Keys == InvalidCreateFields(customerId, amount, status, read)
    ensures r.Failure? ==> forall f :: f in r.error ==>
      r.error[f] == ExpectedMessages(f, customerId, amount, status, read)
    ensures r.Success? ==>
      && customerId == Some(Text(r.value.customerId))
      && CoerceNumber(amount, read) == Num(r.value.amount) && r.value.amount > 0.0
      && status == Some(Text(StatusText(r.value.status)))
  {
    var c, a, s := ParseString(customerId, Custom(SelectCustomerMessage)), ParseAmount(amount, read), ParseStatus(status);
    if c.Success? && a.Success? && s.Success? then
      Success(CreateData(c.value, a.value, s.value))
    else
      Failure(Report(Status, s, Report(Amount, a, Report(CustomerId, c, map[]))))
  }

  /** `UpdateInvoice.safeParse` of the raw `id`, `customerId`, `amount` and `status` values. */
  function ValidateUpdate(id: Option<Entry>, customerId: Option<Entry>, amount: Option<Entry>, status: Option<Entry>,
                          read: NumberReader): (r: Result<UpdateData, FieldErrors>)
    ensures r.Success? <==> InvalidUpdateFields(id, customerId, amount, status, read) == {}
    ensures r.Failure? ==> r.error.Keys == InvalidUpdateFields(id, customerId, amount, status, read)
    ensures r.Failure? ==> forall f :: f in r.error ==>
      r.error[f] == ExpectedMessages(f, customerId, amount, status, read)
    ensures r.Success? ==>
      && id == Some(Text(r.value.id))
      && customerId == Some(Text(r.value.customerId))
      && CoerceNumber(amount, read) == Num(r.value.amount) && r.value.amount > 0.0
      && status == Some(Text(StatusText(r.value.status)))
  {
    // The update schema is the creation schema plus the `id` rule.
    var i := ParseString(id, LibraryDefault(InvalidType));
    var rest := ValidateCreate(customerId, amount, status, read);
    if i.Success? && rest.Success? then
      Success(UpdateData(i.value, rest.value.customerId, rest.value.amount, rest.value.status))
    else
      Failure(Report(Id, i, if rest.Failure? then rest.error else map[]))
  }

  /** Creation errors are only ever keyed by `customerId`, `amount` and `status`. */
  lemma CreateErrorKeys(customerId: Option<Entry>, amount: Option<Entry>, status: Option<Entry>, read: NumberReader)
    requires ValidateCreate(customerId, amount, status, read).Failure?
    ensures ValidateCreate(customerId, amount, status, read).error.Keys <= {CustomerId, Amount, Status}
    ensures forall f :: f in ValidateCreate(customerId, amount, status, read).error ==>
      FieldName(f) in {"customerId", "amount", "status"}
  {
  }

  /** An amount that coerces to a number not above 0 is rejected with the amount message, in both variants. */
  lemma LowAmountRejected(id: Option<Entry>, customerId: Option<Entry>, amount: Option<Entry>, status: Option<Entry>,
                          read: NumberReader)
    requires CoerceNumber(amount, read).Num? && CoerceNumber(amount, read).value <= 0.0
    ensures var r := ValidateCreate(customerId, amount, status, read);
      r.Failure? && Amount in r.error && r.error[Amount] == [Custom(AmountMessage)]
    ensures var r := ValidateUpdate(id, customerId, amount, status, read);
      r.Failure? && Amount in r.error && r.error[Amount] == [Custom(AmountMessage)]
  {
  }

  /** A missing or empty amount coerces to 0 and is therefore rejected with the amount message. */
  lemma MissingAmountRejected(customerId: Option<Entry>, amount: Option<Entry>, status: Option<Entry>, read: NumberReader)
    requires amount == None || amount == Some(Text(""))
    ensures var r := ValidateCreate(customerId, amount, status, read);
      r.Failure? && Amount in r.error && r.error[Amount] == [Custom(AmountMessage)]
  {
    LowAmountRejected(None, customerId, amount, status, read);
  }

  /** A file submitted as the amount coerces to NaN and fails the number type check with the library's message. */
  lemma FileAmountRejected(id: Option<Entry>, customerId: Option<Entry>, status: Option<Entry>, read: NumberReader)
    ensures var r := ValidateCreate(customerId, Some(Blob), status, read);
      r.Failure? && Amount in r.error && r.error[Amount] == [LibraryDefault(InvalidType)]
    ensures var r := ValidateUpdate(id, customerId, Some(Blob), status, read);
      r.Failure? && Amount in r.error && r.error[Amount] == [LibraryDefault(InvalidType)]
  {
  }

  /** Only the two literals pass as a status; a missing or non-string one gets the status message. */
  lemma StatusRule(customerId: Option<Entry>, amount: Option<Entry>, status: Option<Entry>, read: NumberReader)
    ensures var r := ValidateCreate(customerId, amount, status, read);
      (r.Failure? && Status in r.error) <==> !IsStatusLiteral(status)
    ensures var r := ValidateCreate(customerId, amount, status, read);
      !IsString(status) ==> r.Failure? && Status in r.error && r.error[Status] == [Custom(SelectStatusMessage)]
  {
  }

  /** A missing or non-string customer gets the customer message; any string, even an empty one, passes. */
  lemma CustomerIdRule(customerId: Option<Entry>, amount: Option<Entry>, status: Option<Entry>, read: NumberReader)
    ensures var r := ValidateCreate(customerId, amount, status, read);
      (r.Failure? && CustomerId in r.error) <==> !IsString(customerId)
    ensures var r := ValidateCreate(customerId, amount, status, read);
      !IsString(customerId) ==> r.Failure? && CustomerId in r.error && r.error[CustomerId] == [Custom(SelectCustomerMessage)]
  {
  }

  /** Validation does not stop at the first failure: with every field bad, every field is reported. */
  lemma AllFailuresReported(read: NumberReader)
    ensures var r := ValidateCreate(None, None, Some(Text("overdue")), read);
      r.Failure? && r.error == map[CustomerId := [Custom(SelectCustomerMessage)],
                                   Amount := [Custom(AmountMessage)],
                                   Status := [LibraryDefault(InvalidEnumValue)]]
    ensures var r := ValidateUpdate(None, None, None, None, read);
      r.Failure? && r.error.Keys == {Id, CustomerId, Amount, Status}
  {
  }
}
