# Invoice dashboard: form actions and access control, modelled in Dafny

This project models the decision logic of an invoice dashboard's server side:

- the **validation schema** for invoice forms (`InvoiceSchema` and its `CreateInvoice` and
  `UpdateInvoice` variants), which checks `id`, `customerId`, `amount` and `status` field by
  field and reports every failing field, with its messages, under that field's key;
- the **form actions** `createInvoice`, `updateInvoice` and `deleteInvoice`. Each one validates
  its input (except delete), sends one statement to the `invoices` table, and on success marks
  the invoice list `/dashboard/invoices` stale. Create and update then navigate to that list;
  delete returns `Deleted Invoice.` instead;
- the **error mapping of `authenticate`**: a sign-in failure whose message mentions
  `CredentialsSignin` becomes the code `CredentialSignin`; any other failure is thrown on;
- the **`authorized` callback**: `/dashboard…` paths need a signed-in user. A signed-in user on
  any other path is sent to `/dashboard`. Everyone else is let through.

Modules, one per component:

| file | module | models |
|---|---|---|
| `wrappers.dfy` | `Wrappers` | `Option` (`null`/`undefined`) and `Result` |
| `js_string.dfy` | `JsString` | `startsWith`, `includes`, `split(c)[0]` on strings |
| `web_form.dfy` | `WebForm` | `FormData` as an ordered list of entries, and `FormData.get` |
| `invoice_schema.dfy` | `InvoiceSchema` | the zod rules, number coercion, the flattened field errors |
| `invoice_actions.dfy` | `InvoiceActions` | the `invoices` table, the effect log, the three actions |
| `authentication.dfy` | `Authentication` | the `catch` block of `authenticate` |
| `auth_config.dfy` | `AuthConfig` | `callbacks.authorized` |

How the outside world enters the model:

- **The database** is a map from invoice id to row, held in the class `InvoiceStore` with the
  effect log. Each action takes a boolean `dbOk`: the statement succeeds or it throws. An
  INSERT also fails when the key the database generates (`newId`) is already taken. An
  UPDATE or DELETE whose key matches no row succeeds and changes nothing.
- **Effects** are appended to `log`. `Execute(statement)` records a statement that was sent.
  `Revalidate(path)` records a call to `revalidatePath`.
- **Navigation** by `redirect` is the result `Redirected(path)`. Any other ending is
  `Completed(state)`.
- **The clock** is a parameter `now`, the ISO-8601 timestamp `new Date().toISOString()` would
  give. The date stored is its part before the first `T`.
- **Number parsing** of non-empty strings is a parameter `read`. The model writes out the cases
  `Number(x)` settles on its own: `null` and `""` give 0, and a file gives NaN.
- **zod's default messages** stay abstract, as `LibraryDefault(InvalidType)` and
  `LibraryDefault(InvalidEnumValue)`. The schema's own Chinese messages are literal.

Behaviour of the code worth knowing:

- The amount stored is `amount * 100` without rounding (app/lib/actions.ts:52, 90).
- The update schema keeps `id: z.string()`. A missing `id` therefore adds an `id` key to the
  update errors. `State` declares only three keys, but creation is the only action limited to
  them (`CreateErrorKeys`).
- A value thrown by `signIn` without a string `message` makes `.includes` throw a `TypeError`.
  It is not rethrown unchanged (`ThrowsTypeError`).
- `customerId` is checked only for being a string. An empty string passes (`CustomerIdRule`).
- `formData.get` yields `null`, never `undefined`. The schema's `invalid_type_error` messages
  therefore cover missing fields too.
- A delete with no `id` entry sends `undefined` as the key. It matches no row and still reports
  `Deleted Invoice.`.

The methods `CreateScenario`, `UpdateScenario`, `DeleteScenario` and `DeleteWithoutIdScenario`
hold sample submissions whose assertions, drawn from the method contracts, are checked when the
project is verified: 45.50 dollars stored as 4550 cents with the clock's date; an
update of one row that keeps its date and leaves the other row alone; a failed and then a
successful delete; and a delete without an `id` that keeps the table and reports a deletion.

## Model

| member | source | states |
|---|---|---|
| `JsString.StartsWith` | auth.config.ts:12 | true exactly when the prefix is an initial segment of the string |
| `JsString.StartsWithAppend` | auth.config.ts:12 | every string built as prefix + anything starts with that prefix |
| `JsString.Contains` | app/lib/actions.ts:128 | true exactly when the substring occurs at some index of the string |
| `JsString.OccursShift` | app/lib/actions.ts:128 | an occurrence not at index 0 is an occurrence in the tail, one place earlier, and back |
| `JsString.ContainsInside` | app/lib/actions.ts:128 | a substring placed anywhere inside a string is found |
| `JsString.BeforeFirst` | app/lib/actions.ts:55 | result is a prefix of the input, holds no separator, and is followed by the separator unless it is the whole input |
| `JsString.BeforeFirstOfJoin` | app/lib/actions.ts:55 | splitting d + sep + rest at the first sep gives d when d holds no sep |
| `WebForm.Get` | app/lib/actions.ts:38-40 | `None` exactly when no entry has the name; otherwise the value of the first entry with that name |
| `WebForm.GetIgnoresLaterEntries` | app/lib/actions.ts:75-78 | entries appended after the first one with a name never change what `get` returns |
| `InvoiceSchema.ValidateCreate` | app/lib/actions.ts:18-32 | success exactly when no field is invalid; on failure the error keys are exactly the invalid fields, each with its schema message; on success the data are the submitted string, the coerced positive amount and the submitted status literal |
| `InvoiceSchema.ValidateUpdate` | app/lib/actions.ts:72-79 | the same, with `id` also required to be a string and reported under its own key |
| `InvoiceSchema.CreateErrorKeys` | app/lib/actions.ts:9-16 | creation errors are keyed only by `customerId`, `amount` and `status`: the names of their keys are among those `State` declares |
| `InvoiceSchema.CoerceNumber` | app/lib/actions.ts:23 | `null` and `""` give 0 and a file gives NaN; a non-empty string is read by the number reader; NaN arises only from a file or from a string the reader rejects |
| `InvoiceSchema.FileAmountRejected` | app/lib/actions.ts:23 | a file submitted as the amount fails both variants with the library's number type message |
| `InvoiceSchema.LowAmountRejected` | app/lib/actions.ts:23-25 | an amount coercing to a number ≤ 0 fails both variants with '请输入大于0美元的金额' |
| `InvoiceSchema.MissingAmountRejected` | app/lib/actions.ts:23-25 | a missing or empty amount coerces to 0 and fails with the amount message |
| `InvoiceSchema.StatusRule` | app/lib/actions.ts:26-28 | status is rejected exactly when it is not 'pending' or 'paid'; a missing or non-string one gets '请选择一个发票状态' |
| `InvoiceSchema.CustomerIdRule` | app/lib/actions.ts:20-22 | customerId is rejected exactly when it is not a string, with '请选择一个用户' |
| `InvoiceSchema.AllFailuresReported` | app/lib/actions.ts:43-46 | with every field bad, every field is reported at once, in both variants |
| `InvoiceActions.AmountInCents` | app/lib/actions.ts:52 | dividing the stored amount by 100 gives back the dollar amount; a positive amount stays positive |
| `InvoiceActions.SampleAmounts` | app/lib/actions.ts:90 | 45.5 dollars are 4550 cents and 10 dollars are 1000 cents |
| `InvoiceActions.IsoDate` | app/lib/actions.ts:55 | the stored date is the longest initial segment of the timestamp with no `T` in it: it is followed by a `T` unless it is the whole timestamp |
| `InvoiceActions.IsoDateOfTimestamp` | app/lib/actions.ts:54-55 | for a timestamp `date` + `T` + time the stored date is `date` |
| `InvoiceActions.SampleTimestamp` | app/lib/actions.ts:55 | the clock reading 2024-03-01T10:20:30.000Z gives the date 2024-03-01 |
| `InvoiceActions.InsertRow` | app/lib/actions.ts:58-61 | the new key is added with the new row and every existing row is kept |
| `InvoiceActions.UpdateRow` | app/lib/actions.ts:93-97 | same keys; only customer_id, amount and status of the matching row change, its date is kept; all other rows are unchanged |
| `InvoiceActions.DeleteRow` | app/lib/actions.ts:111 | exactly the matching key is removed (none for an undefined key) and remaining rows are unchanged |
| `InvoiceActions.DeleteUndoesInsert` | app/lib/actions.ts:111 | deleting a freshly inserted row restores the table |
| `InvoiceActions.UpdateWithSameValues` | app/lib/actions.ts:93-97 | updating a row with its own values leaves the table unchanged |
| `InvoiceActions.MissingIdDeletesNothing` | app/lib/actions.ts:109-111 | a form with no `id` entry gives an undefined key, and the DELETE then leaves the table as it was |
| `InvoiceActions.FileIdDeletesOnlyThatKey` | app/lib/actions.ts:109-111 | a file submitted as the id removes only a row keyed '[object File]' |
| `InvoiceActions.CreateRequest` | app/lib/actions.ts:37-50 | the form is accepted exactly when the first `customerId`, `amount` and `status` entries all pass the schema; on success the amount is the coerced first `amount` entry, the status is the first `status` entry's literal, and the customer id is the text of the form's first `customerId` entry; on failure the error keys are exactly the fields whose first entry is invalid, each with the schema's message for it; a form without a `customerId` or without an `amount` entry fails with the customer or amount message |
| `InvoiceActions.UpdateRequest` | app/lib/actions.ts:74-88 | the form is accepted exactly when the first `id`, `customerId`, `amount` and `status` entries all pass the schema; on success the amount and status come from the first such entries, the customer id is the form's first `customerId` entry and the id the text of the form's first `id` entry; on failure the error keys are exactly the fields (`id` included) whose first entry is invalid, each with the schema's message for it; a form without an `id` entry fails with the library's type message under `id` |
| `InvoiceActions.SampleUpdateFormFields` | app/lib/actions.ts:74-79 | what the update action reads from a sample form |
| `InvoiceActions.SampleUpdateValuesValid` | app/lib/actions.ts:74-79 | the sample values pass the update schema unchanged |
| `InvoiceActions.SampleUpdateFormValid` | app/lib/actions.ts:74-79 | the sample update form validates to id inv1, customer c2, 10 dollars, paid |
| `InvoiceActions.InvoiceStore.CreateInvoice` | app/lib/actions.ts:34-70 | invalid form: field errors plus '有选项尚未填写，创建发票失败', table and log unchanged; failed INSERT: 'Database Error: Failed to Create Invoice.', table unchanged, no revalidation, no redirect; success: row inserted with amount × 100 and the clock's date, list revalidated, redirect to /dashboard/invoices; positive stored amounts stay positive |
| `InvoiceActions.InvoiceStore.UpdateInvoice` | app/lib/actions.ts:73-106 | invalid form: field errors plus '有选项尚未填写，更新发票失败', nothing changes; failed UPDATE: 'Database Error: Failed to Update Invoice.' and no revalidation or redirect; success: only three columns of the matching row change, list revalidated, redirect to /dashboard/invoices |
| `InvoiceActions.InvoiceStore.DeleteInvoice` | app/lib/actions.ts:108-119 | never redirects and never reports field errors; success: exactly the matching row removed, list revalidated, 'Deleted Invoice.'; failure: table unchanged, no revalidation, 'Database Error: Failed to Delete Invoice.' |
| `Authentication.ClassifySignInError` | app/lib/actions.ts:127-132 | 'CredentialSignin' exactly when the message contains 'CredentialsSignin'; rethrown unchanged exactly when there is a message without it; a TypeError when there is no message |
| `Authentication.Authenticate` | app/lib/actions.ts:121-133 | returns nothing exactly when sign-in completes; otherwise classifies what it threw |
| `Authentication.MarkerAnywhereIsCredentialSignin` | app/lib/actions.ts:128-129 | a message with 'CredentialsSignin' anywhere in it gives 'CredentialSignin' |
| `Authentication.OnlyCredentialCodeReturned` | app/lib/actions.ts:129 | the only code ever returned is 'CredentialSignin' |
| `Authentication.ShortMessageRethrown` | app/lib/actions.ts:131 | a message too short to hold the marker is thrown on unchanged |
| `AuthConfig.Authorized` | auth.config.ts:12-19 | Allow exactly when being on the dashboard and being signed in agree; Deny exactly on the dashboard without a user; a redirect, always to /dashboard, exactly off the dashboard with a user |
| `AuthConfig.AuthorizedCallback` | auth.config.ts:10-20 | Allow exactly when having a user agrees with being on a dashboard path; Deny exactly when a dashboard path comes with no session or a session without a user; a redirect to /dashboard exactly when a non-dashboard path comes with a user |
| `AuthConfig.SessionUserDecides` | auth.config.ts:11 | a session without a user decides like no session; a user object with no name or email still counts as signed in |
| `AuthConfig.DecisionDependsOnlyOnUserAndPath` | auth.config.ts:10-20 | inputs with the same user presence and pathname get the same decision, whatever else differs |
| `AuthConfig.DashboardSubtreeProtected` | auth.config.ts:12-15 | every path beginning with /dashboard, such as /dashboard/x or /dashboardfoo, is allowed with a user and denied without |
| `AuthConfig.OutsideDashboardNotProtected` | auth.config.ts:16-19 | a path differing from /dashboard in its first ten characters is redirected with a user and allowed without |
| `AuthConfig.DecisionTable` | auth.config.ts:13-19 | the four cases on /dashboard/x and /login, and /dashboardfoo denied without a user |

## Left out

- app/ui/fonts.ts only configures web fonts through a library call. It holds no logic.
- The Postgres driver, the SQL text, connections and transactions are replaced by the
  `invoices` map and the `dbOk` oracle. Why a statement fails (bad UUID, foreign key, type
  conversion of a fractional cent amount) is not modelled.
- The internals of `revalidatePath` and `redirect` are not modelled. `revalidatePath` is taken
  never to fail. In `deleteInvoice` it sits inside the `try` block, so a failure there would
  be reported as the database error after the row was already removed.
- zod's internals and its default message texts are not modelled. They stay abstract as
  `LibraryDefault(code)`.
- JavaScript's reading of non-empty numeric strings (literal grammar, white-space trimming,
  hexadecimal, `Infinity`) is the `read` parameter. `JsNumber` has no infinities, so an
  `Infinity` amount is not modelled.
- AmountInCents: multiplies exactly on reals and does not model IEEE-754 double rounding.
- `new Date().toISOString()` is not modelled. The action receives its result as `now`.
- The `prevState` argument of the create and update actions is ignored by the source and
  omitted from the model.
- `signIn`, session issuance, `Object.fromEntries(formData)` and the credentials provider are
  not modelled. `authenticate` receives only how the call ended.
- `Response.redirect(new URL('/dashboard', nextUrl))` builds an absolute URL on the request's
  origin. `RedirectTo` keeps only the path `/dashboard`.
- The `pages` entries of the configuration (`/login`, `/`) are data for the framework. No
  logic of this core reads them.
- `async`/`await`, `'use server'` and concurrent requests are framework plumbing and are not
  modelled.
