/**
 * The invoice form actions `createInvoice`, `updateInvoice` and `deleteInvoice`.
 * The `invoices` table is a map from invoice id to row; the database statement
 * either succeeds or fails, as an oracle parameter decides; cache invalidation
 * and attempted statements are recorded in an effect log; and the framework's
 * `redirect` is the result variant `Redirected`.
 */
module InvoiceActions {
  import opened Wrappers
  import opened JsString
  import opened WebForm
  import opened InvoiceSchema

  /** A row of the `invoices` table, without its key `id`; `amount` is in cents. */
  datatype Invoice = Invoice(customerId: string, amount: real, status: InvoiceStatus, date: string)

  /** The `invoices` table, keyed by `id`. */
  type Table = map<string, Invoice>

  /** The statements the actions send to the database. */
  datatype Statement =
    | Insert(customerId: string, amount: real, status: InvoiceStatus, date: string)
    | Update(id: string, customerId: string, amount: real, status: InvoiceStatus)
    | Delete(key: Option<string>)

  /** An observable effect: a statement sent to the database, or a cached path marked stale. */
  datatype Effect = Execute(statement: Statement) | Revalidate(path: string)

  /** The value an action hands back to the form. */
  datatype ActionState = ActionState(errors: Option<FieldErrors>, message: Option<string>)

  /** How an action ends: it returns a state, or it navigates away. */
  datatype ActionResult = Completed(state: ActionState) | Redirected(path: string)

  const InvoicesPath := "/dashboard/invoices"
  const CreateInvalidMessage := "有选项尚未填写，创建发票失败"
  const UpdateInvalidMessage := "有选项尚未填写，更新发票失败"
  const CreateDbErrorMessage := "Database Error: Failed to Create Invoice."
  const UpdateDbErrorMessage := "Database Error: Failed to Update Invoice."
  const DeleteDbErrorMessage := "Database Error: Failed to Delete Invoice."
  const DeletedMessage := "Deleted Invoice."

  /** The amount written to the table: the dollar amount times 100, exactly, with no rounding. */
  function AmountInCents(amount: real): (cents: real)
    ensures cents / 100.0 == amount
    ensures amount > 0.0 ==> cents > 0.0
  {
    amount * 100.0
  }

  /** `timestamp.split('T')[0]`: the date part of an ISO-8601 timestamp. */
  function IsoDate(timestamp: string): (date: string)
    ensures StartsWith(timestamp, date) && 'T' !in date
    ensures |date| < |timestamp| ==> timestamp[|date|] == 'T'
  {
    BeforeFirst(timestamp, 'T')
  }

  /** The date part of `YYYY-MM-DD` + `T` + time is `YYYY-MM-DD`. */
  lemma IsoDateOfTimestamp(date: string, time: string)
    requires 'T' !in date
    ensures IsoDate(date + "T" + time) == date
  {
    BeforeFirstOfJoin(date, 'T', time);
  }

  /** The amounts computed for two sample submissions, 45.50 and 10 dollars. */
  lemma SampleAmounts()
    ensures AmountInCents(45.5) == 4550.0 && AmountInCents(10.0) == 1000.0
  {
  }

  /** The table after a successful INSERT of `row` under the fresh key `id`. */
  function InsertRow(t: Table, id: string, row: Invoice): (r: Table)
    requires id !in t
    ensures r.Keys == t.Keys + {id} && r[id] == row
    ensures forall k :: k in t ==> r[k] == t[k]
  {
    t[id := row]
  }

  /** The table after a successful UPDATE of `customer_id`, `amount` and `status` where the key is `id`. */
  function UpdateRow(t: Table, id: string, customerId: string, amount: real, status: InvoiceStatus): (r: Table)
    ensures r.Keys == t.Keys
    ensures forall k :: k in t && k != id ==> r[k] == t[k]
    ensures id in t ==> r[id] == Invoice(customerId, amount, status, t[id].date)
  {
    if id in t then t[id := t[id].(customerId := customerId, amount := amount, status := status)] else t
  }

  /** The table after a successful DELETE where the key is `id`; a missing (`undefined`) key matches no row. */
  function DeleteRow(t: Table, id: Option<string>): (r: Table)
    ensures id.Some? ==> r.Keys == t.Keys - {id.value}
    ensures id.None? ==> r == t
    ensures forall k :: k in r ==> r[k] == t[k]
  {
    if id.Some? then t - {id.value} else t
  }

  /** Deleting a freshly inserted row gives back the table as it was. */
  lemma DeleteUndoesInsert(t: Table, id: string, row: Invoice)
    requires id !in t
    ensures DeleteRow(InsertRow(t, id, row), Some(id)) == t
  {
  }

  /** Updating a row with the values it already holds leaves the table unchanged. */
  lemma UpdateWithSameValues(t: Table, id: string)
    requires id in t
    ensures UpdateRow(t, id, t[id].customerId, t[id].amount, t[id].status) == t
  {
  }

  /** Every stored amount is positive. */
  ghost predicate AmountsPositive(t: Table)
  {
    forall k :: k in t ==> t[k].amount > 0.0
  }

  /** `formData.get('id')?.toString()`: `undefined` for a missing entry, the text of a string, a file's fixed text. */
  function DeleteKey(v: Option<Entry>): (id: Option<string>)
    ensures id.None? <==> v.None?
    ensures v.Some? && v.value.Text? ==> id == Some(v.value.text)
    ensures v == Some(Blob) ==> id == Some("[object File]")
  {
    match v
    case None => None
    case Some(Text(s)) => Some(s)
    case Some(Blob) => Some("[object File]")
  }

  /** `CreateInvoice.safeParse` of the submitted form. */
  function CreateRequest(form: FormData, read: NumberReader): (r: Result<CreateData, FieldErrors>)
    ensures r.Success? <==> InvalidCreateFields(Get(form, "customerId"), Get(form, "amount"), Get(form, "status"), read) == {}
    ensures r.Failure? ==>
      r.error.Keys == InvalidCreateFields(Get(form, "customerId"), Get(form, "amount"), Get(form, "status"), read)
    ensures r.Failure? ==> forall f :: f in r.error ==>
      r.error[f] == ExpectedMessages(f, Get(form, "customerId"), Get(form, "amount"), Get(form, "status"), read)
    ensures r.Success? ==>
      CoerceNumber(Get(form, "amount"), read) == Num(r.value.amount) &&
      Get(form, "status") == Some(Text(StatusText(r.value.status)))
    ensures r.Success? ==>
      exists i :: 0 <= i < |form| && form[i] == ("customerId", Text(r.value.customerId)) &&
        forall j :: 0 <= j < i ==> form[j].0 != "customerId"
    ensures (forall i :: 0 <= i < |form| ==> form[i].0 != "customerId") ==>
      r.Failure? && CustomerId in r.error && r.error[CustomerId] == [Custom(SelectCustomerMessage)]
    ensures (forall i :: 0 <= i < |form| ==> form[i].0 != "amount") ==>
      r.Failure? && Amount in r.error && r.error[Amount] == [Custom(AmountMessage)]
  {
    ValidateCreate(Get(form, "customerId"), Get(form, "amount"), Get(form, "status"), read)
  }

  /** `UpdateInvoice.safeParse` of the submitted form. */
  function UpdateRequest(form: FormData, read: NumberReader): (r: Result<UpdateData, FieldErrors>)
    ensures r.Success? <==>
      InvalidUpdateFields(Get(form, "id"), Get(form, "customerId"), Get(form, "amount"), Get(form, "status"), read) == {}
    ensures r.Failure? ==>
      r.error.Keys == InvalidUpdateFields(Get(form, "id"), Get(form, "customerId"), Get(form, "amount"), Get(form, "status"), read)
    ensures r.Failure? ==> forall f :: f in r.error ==>
      r.error[f] == ExpectedMessages(f, Get(form, "customerId"), Get(form, "amount"), Get(form, "status"), read)
    ensures r.Success? ==>
      CoerceNumber(Get(form, "amount"), read) == Num(r.value.amount) &&
      Get(form, "status") == Some(Text(StatusText(r.value.status)))
    ensures r.Success? ==> Get(form, "customerId") == Some(Text(r.value.customerId))
    ensures r.Success? ==>
      exists i :: 0 <= i < |form| && form[i] == ("id", Text(r.value.id)) &&
        forall j :: 0 <= j < i ==> form[j].0 != "id"
    ensures (forall i :: 0 <= i < |form| ==> form[i].0 != "id") ==>
      r.Failure? && Id in r.error && r.error[Id] == [LibraryDefault(InvalidType)]
  {
    ValidateUpdate(Get(form, "id"), Get(form, "customerId"), Get(form, "amount"), Get(form, "status"), read)
  }

  /** A delete form without an `id` entry sends an undefined key, which matches no row. */
  lemma MissingIdDeletesNothing(t: Table, form: FormData)
    requires forall i :: 0 <= i < |form| ==> form[i].0 != "id"
    ensures DeleteKey(Get(form, "id")) == None
    ensures DeleteRow(t, DeleteKey(Get(form, "id"))) == t
  {
  }

  /** A file submitted as the id deletes only a row keyed by the file's fixed text. */
  lemma FileIdDeletesOnlyThatKey(t: Table, form: FormData)
    requires Get(form, "id") == Some(Blob)
    ensures DeleteRow(t, DeleteKey(Get(form, "id"))) == t - {"[object File]"}
  {
  }

  /** The `invoices` table together with the effects the actions have caused so far. */
  class InvoiceStore {
    var invoices: Table
    var log: seq<Effect>

    constructor (initial: Table)
      ensures invoices == initial && log == []
    {
      invoices := initial;
      log := [];
    }

    /**
     * `createInvoice`: validate, insert a row under the key `newId` the database
     * generates, dated by the clock reading `now` (an ISO-8601 timestamp), then
     * invalidate the invoice list and navigate to it. `dbOk` says whether the
     * database accepts the statement; a clash with an existing key fails it too.
     */
    method CreateInvoice(form: FormData, read: NumberReader, now: string, newId: string, dbOk: bool)
      returns (r: ActionResult)
      modifies this
      ensures var v := CreateRequest(form, read);
        v.Failure? ==>
          && r == Completed(ActionState(Some(v.error), Some(CreateInvalidMessage)))
          && invoices == old(invoices) && log == old(log)
      ensures var v := CreateRequest(form, read);
        v.Success? ==>
          var cents := AmountInCents(v.value.amount);
          var st := Insert(v.value.customerId, cents, v.value.status, IsoDate(now));
          if dbOk && newId !in old(invoices) then
            && r == Redirected(InvoicesPath)
            && invoices == InsertRow(old(invoices), newId, Invoice(v.value.customerId, cents, v.value.status, IsoDate(now)))
            && log == old(log) + [Execute(st), Revalidate(InvoicesPath)]
          else
            && r == Completed(ActionState(None, Some(CreateDbErrorMessage)))
            && invoices == old(invoices)
            && log == old(log) + [Execute(st)]
      ensures AmountsPositive(old(invoices)) ==> AmountsPositive(invoices)
    {
      var v := CreateRequest(form, read);
      if v.Failure? {
        return Completed(ActionState(Some(v.error), Some(CreateInvalidMessage)));
      }
      var CreateData(customerId, amount, status) := v.value;
      var amountInCents := AmountInCents(amount);
      var date := IsoDate(now);
      log := log + [Execute(Insert(customerId, amountInCents, status, date))];
      if !dbOk || newId in invoices {
        return Completed(ActionState(None, Some(CreateDbErrorMessage)));
      }
      invoices := InsertRow(invoices, newId, Invoice(customerId, amountInCents, status, date));
      log := log + [Revalidate(InvoicesPath)];
      r := Redirected(InvoicesPath);
    }

    /**
     * `updateInvoice`: validate, set `customer_id`, `amount` and `status` of the
     * row keyed by the submitted id (no row when none matches), then invalidate
     * the invoice list and navigate to it. `dbOk` says whether the database
     * accepts the statement.
     */
    method UpdateInvoice(form: FormData, read: NumberReader, dbOk: bool) returns (r: ActionResult)
      modifies this
      ensures var v := UpdateRequest(form, read);
        v.Failure? ==>
          && r == Completed(ActionState(Some(v.error), Some(UpdateInvalidMessage)))
          && invoices == old(invoices) && log == old(log)
      ensures var v := UpdateRequest(form, read);
        v.Success? ==>
          var cents := AmountInCents(v.value.amount);
          var st := Update(v.value.id, v.value.customerId, cents, v.value.status);
          if dbOk then
            && r == Redirected(InvoicesPath)
            && invoices == UpdateRow(old(invoices), v.value.id, v.value.customerId, cents, v.value.status)
            && log == old(log) + [Execute(st), Revalidate(InvoicesPath)]
          else
            && r == Completed(ActionState(None, Some(UpdateDbErrorMessage)))
            && invoices == old(invoices)
            && log == old(log) + [Execute(st)]
      ensures AmountsPositive(old(invoices)) ==> AmountsPositive(invoices)
    {
      var v := UpdateRequest(form, read);
      if v.Failure? {
        return Completed(ActionState(Some(v.error), Some(UpdateInvalidMessage)));
      }
      var UpdateData(id, customerId, amount, status) := v.value;
      var amountInCents := AmountInCents(amount);
      log := log + [Execute(Update(id, customerId, amountInCents, status))];
      if !dbOk {
        return Completed(ActionState(None, Some(UpdateDbErrorMessage)));
      }
      invoices := UpdateRow(invoices, id, customerId, amountInCents, status);
      log := log + [Revalidate(InvoicesPath)];
      r := Redirected(InvoicesPath);
    }

    /**
     * `deleteInvoice`: no validation; delete the row keyed by the submitted id,
     * invalidate the invoice list and report success without navigating.
     * `dbOk` says whether the database accepts the statement.
     */
    method DeleteInvoice(form: FormData, dbOk: bool) returns (r: ActionResult)
      modifies this
      ensures !r.Redirected? && r.state.errors.None?
      ensures var st := Delete(DeleteKey(Get(form, "id")));
        if dbOk then
          && r == Completed(ActionState(None, Some(DeletedMessage)))
          && invoices == DeleteRow(old(invoices), DeleteKey(Get(form, "id")))
          && log == old(log) + [Execute(st), Revalidate(InvoicesPath)]
        else
          && r == Completed(ActionState(None, Some(DeleteDbErrorMessage)))
          && invoices == old(invoices)
          && log == old(log) + [Execute(st)]
      ensures AmountsPositive(old(invoices)) ==> AmountsPositive(invoices)
    {
      var id := DeleteKey(Get(form, "id"));
      log := log + [Execute(Delete(id))];
      if !dbOk {
        return Completed(ActionState(None, Some(DeleteDbErrorMessage)));
      }
      invoices := DeleteRow(invoices, id);
      log := log + [Revalidate(InvoicesPath)];
      r := Completed(ActionState(None, Some(DeletedMessage)));
    }
  }

  /** The clock reading used by the sample creation below yields the date 2024-03-01. */
  lemma SampleTimestamp()
    ensures IsoDate("2024-03-01T10:20:30.000Z") == "2024-03-01"
  {
    IsoDateOfTimestamp("2024-03-01", "10:20:30.000Z");
    assert "2024-03-01T10:20:30.000Z" == "2024-03-01" + "T" + "10:20:30.000Z";
  }

  /** A valid creation of 45.50 dollars stores 4550 cents under the generated key, dated by the clock. */
  method CreateScenario(read: NumberReader)
    requires read("45.50") == Num(45.5)
  {
    var form := [("customerId", Text("c1")), ("amount", Text("45.50")), ("status", Text("pending"))];
    assert Get(form, "customerId") == Some(Text("c1"));
    assert Get(form, "amount") == Some(Text("45.50"));
    assert Get(form, "status") == Some(Text("pending"));
    assert CreateRequest(form, read) == Success(CreateData("c1", 45.5, Pending));
    var store := new InvoiceStore(map[]);
    var r := store.CreateInvoice(form, read, "2024-03-01T10:20:30.000Z", "inv1", true);
    assert r == Redirected(InvoicesPath);
    SampleTimestamp();
    assert store.invoices == map["inv1" := Invoice("c1", 4550.0, Pending, "2024-03-01")];
  }

  /** The sample update form: invoice inv1 now belongs to c2, is 10 dollars, and is paid. */
  function SampleUpdateForm(): FormData
  {
    [("id", Text("inv1")), ("customerId", Text("c2")), ("amount", Text("10")), ("status", Text("paid"))]
  }

  /** What `get` reads from the sample update form. */
  lemma SampleUpdateFormFields()
    ensures Get(SampleUpdateForm(), "id") == Some(Text("inv1"))
    ensures Get(SampleUpdateForm(), "customerId") == Some(Text("c2"))
    ensures Get(SampleUpdateForm(), "amount") == Some(Text("10"))
    ensures Get(SampleUpdateForm(), "status") == Some(Text("paid"))
  {
  }

  /** The values of the sample update form pass the update schema unchanged. */
  lemma SampleUpdateValuesValid(read: NumberReader)
    requires read("10") == Num(10.0)
    ensures ValidateUpdate(Some(Text("inv1")), Some(Text("c2")), Some(Text("10")), Some(Text("paid")), read)
         == Success(UpdateData("inv1", "c2", 10.0, Paid))
  {
    assert ParseAmount(Some(Text("10")), read) == Success(10.0);
  }

  /** The sample update form passes validation with exactly its submitted values. */
  lemma SampleUpdateFormValid(read: NumberReader)
    requires read("10") == Num(10.0)
    ensures UpdateRequest(SampleUpdateForm(), read) == Success(UpdateData("inv1", "c2", 10.0, Paid))
  {
    SampleUpdateFormFields();
    SampleUpdateValuesValid(read);
  }

  /** A valid update of 10 dollars rewrites three columns of the targeted row and keeps its date. */
  method UpdateScenario(read: NumberReader)
    requires read("10") == Num(10.0)
  {
    SampleUpdateFormValid(read);
    var store := new InvoiceStore(map["inv1" := Invoice("c1", 4550.0, Pending, "2024-03-01"),
                                      "inv2" := Invoice("c3", 700.0, Paid, "2024-02-11")]);
    var r := store.UpdateInvoice(SampleUpdateForm(), read, true);
    assert r == Redirected(InvoicesPath);
    assert store.invoices["inv1"] == Invoice("c2", 1000.0, Paid, "2024-03-01");
    assert store.invoices["inv2"] == Invoice("c3", 700.0, Paid, "2024-02-11");
  }

  /** A delete form without an `id` leaves the table as it was and still reports a deletion. */
  method DeleteWithoutIdScenario()
  {
    var store := new InvoiceStore(map["inv1" := Invoice("c1", 4550.0, Pending, "2024-03-01")]);
    MissingIdDeletesNothing(store.invoices, []);
    var r := store.DeleteInvoice([], true);
    assert r == Completed(ActionState(None, Some(DeletedMessage)));
    assert store.invoices == map["inv1" := Invoice("c1", 4550.0, Pending, "2024-03-01")];
  }

  /** A failed deletion keeps the row and reports the error; a successful one removes it and does not navigate. */
  method DeleteScenario()
  {
    var store := new InvoiceStore(map["inv1" := Invoice("c1", 4550.0, Pending, "2024-03-01")]);
    var form := [("id", Text("inv1"))];
    assert Get(form, "id") == Some(Text("inv1"));
    var failed := store.DeleteInvoice(form, false);
    assert failed == Completed(ActionState(None, Some(DeleteDbErrorMessage)));
    assert "inv1" in store.invoices;
    var deleted := store.DeleteInvoice(form, true);
    assert deleted == Completed(ActionState(None, Some(DeletedMessage)));
    assert store.invoices == map[];
    assert store.log == [Execute(Delete(Some("inv1"))), Execute(Delete(Some("inv1"))), Revalidate(InvoicesPath)];
  }
}
