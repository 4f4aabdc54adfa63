# BillMate bill store, in Dafny

BillMate is a bill-tracking web front end. This project models its core:

- the client-side bill store (the `bills` slice). It holds a list of bills, a `loading` flag and an `error` text, and it changes only through six reducers:
  - `fetchBillsStart`, `fetchBillsSuccess` and `fetchBillsFailure` for a load;
  - `addBill`, `updateBill` and `deleteBill` for single bills.
- the three pages that drive the store:
  - the bill list, with its load, add/edit dialog and delete;
  - the dashboard, with its load and its summaries;
  - the registration form, with its password check and its error and loading flags.

Modules, one per source file, plus two shared ones:

- `Api`: `Option`; `Response<T> = Ok(payload) | Err(detail)`, which stands for the outcome of one HTTP request; JavaScript truthiness of an optional text; and `detail || fallback`.
- `BillsSlice`: the `Bill` record and the slice's reducer as a pure function, `Reduce`, folded over an action history by `ReduceAll`.
  - `BillsStore` is a class. Its fields are `bills: seq<Bill>`, `loading` and `error`.
  - Each of its six methods runs one reducer in place and appends that action to a ghost log, `dispatched`.
  - Its invariant `Valid()` says the fields equal `ReduceAll(InitialState(), dispatched)`, and that no error is set while loading.
- `BillsSync`: the requests the pages send and the effect log type (`Dispatch(action) | Send(request)`). It also holds the load sequence that both pages run, written once as `Load`.
- `BillsPage`, `Dashboard`, `Register`: one class per page. Each holds the page's component state and a ghost log of its effects in order. The pure view choices and summaries are functions.

Each network call is a parameter of the handler that makes it. The handler receives the call's outcome as a `Response`.

## Model

| member | source | states |
|---|---|---|
| `Api.OrElse` | frontend/src/pages/Bills.tsx:73 | `detail \|\| fallback`: the detail when it is a non-empty text, else the fallback; never empty when the fallback is not |
| `BillsSlice.FirstIndex` | frontend/src/store/slices/billsSlice.ts:47 | `findIndex` by id: -1 exactly when no bill has the id, else an index holding the id with no earlier index holding it |
| `BillsSlice.FindIndex` | frontend/src/store/slices/billsSlice.ts:47 | the linear search returns exactly the first index holding the id, or -1 |
| `BillsSlice.ReplaceFirstById` | frontend/src/store/slices/billsSlice.ts:46-51 | update: same length; the first bill with the id is replaced by the new bill at the same index; every other position unchanged; no match leaves the list unchanged |
| `BillsSlice.WithoutId` | frontend/src/store/slices/billsSlice.ts:52-54 | delete: a bill is in the result exactly when it is in the list and has another id; never longer |
| `BillsSlice.Reduce` | frontend/src/store/slices/billsSlice.ts:27-56 | the reducer keeps "loading implies no error"; add, update and delete never change `loading` or `error` |
| `BillsSlice.ReachableIsConsistent` | frontend/src/store/slices/billsSlice.ts:21-42 | every action sequence from the initial state reaches a state where `loading` implies `error == null` |
| `BillsSlice.LoadingIffOutstanding` | frontend/src/store/slices/billsSlice.ts:31-42 | from the initial state, `loading` holds exactly when some start has no success or failure after it |
| `BillsSlice.ErrorIffLastFailure` | frontend/src/store/slices/billsSlice.ts:31-42 | from the initial state, `error == m` exactly when a failure with `m` was dispatched and no start or other failure came after it |
| `BillsSlice.AddBillUniqueIff` | frontend/src/store/slices/billsSlice.ts:43-45 | append does no de-duplication: ids stay unique exactly when the new id is absent |
| `BillsSlice.ReplaceFirstByIdKeepsIds` | frontend/src/store/slices/billsSlice.ts:46-51 | update keeps the id at every position |
| `BillsSlice.ReplaceFirstByIdIdempotent` | frontend/src/store/slices/billsSlice.ts:46-51 | repeating the same update changes nothing more |
| `BillsSlice.ReplaceFirstByIdUnique` | frontend/src/store/slices/billsSlice.ts:46-51 | with unique ids, update replaces exactly the bill with that id, and ids stay unique |
| `BillsSlice.WithoutIdAppend` | frontend/src/store/slices/billsSlice.ts:53 | delete keeps the survivors in order: filtering a concatenation filters each part |
| `BillsSlice.WithoutIdAbsent` | frontend/src/store/slices/billsSlice.ts:53 | deleting an absent id leaves the list unchanged |
| `BillsSlice.WithoutIdIdempotent` | frontend/src/store/slices/billsSlice.ts:53 | deleting the same id twice equals deleting it once |
| `BillsSlice.WithoutIdMultiset` | frontend/src/store/slices/billsSlice.ts:53 | delete drops every copy of a bill with the id and keeps every copy of every other bill |
| `BillsSlice.WithoutIdUnique` | frontend/src/store/slices/billsSlice.ts:53 | delete keeps ids unique |
| `BillsSlice.LoadAddEditDeleteScenario` | frontend/src/store/slices/billsSlice.ts:31-54 | load [bill 1], add bill 2, edit bill 1, delete bill 1 ends with [bill 2], not loading, no error |
| `BillsSlice.BillsStore.constructor` | frontend/src/store/slices/billsSlice.ts:21-25 | the initial state: no bills, not loading, no error, empty history |
| `BillsSlice.BillsStore.FetchBillsStart` | frontend/src/store/slices/billsSlice.ts:31-34 | sets `loading`, clears `error`, leaves `bills` unchanged |
| `BillsSlice.BillsStore.FetchBillsSuccess` | frontend/src/store/slices/billsSlice.ts:35-38 | `bills` becomes the payload exactly; `loading` false; `error` untouched |
| `BillsSlice.BillsStore.FetchBillsFailure` | frontend/src/store/slices/billsSlice.ts:39-42 | `loading` false, `error` is the message, `bills` unchanged |
| `BillsSlice.BillsStore.AddBill` | frontend/src/store/slices/billsSlice.ts:43-45 | `bills` becomes the old list plus the bill at the end; flags unchanged |
| `BillsSlice.BillsStore.UpdateBill` | frontend/src/store/slices/billsSlice.ts:46-51 | `bills` becomes `ReplaceFirstById` of the old list; flags unchanged |
| `BillsSlice.BillsStore.DeleteBill` | frontend/src/store/slices/billsSlice.ts:52-54 | `bills` becomes `WithoutId` of the old list; flags unchanged |
| `BillsSync.LoadFailureMessage` | frontend/src/pages/Bills.tsx:73 | the failure message is never empty; it is either the server detail or 'Failed to fetch bills' |
| `BillsSync.LoadEnd` | frontend/src/pages/Bills.tsx:71-73 | a load ends in exactly one of success (with the response list) or failure (with the message) |
| `BillsSync.Load` | frontend/src/pages/Bills.tsx:63-75 | start, then the request, then one success or failure in the store's history; not loading afterwards; list replaced on success, kept on failure |
| `BillsPage.SelectView` | frontend/src/pages/Bills.tsx:155-171 | spinner exactly while loading, whatever the error; otherwise error text exactly when the error is a non-empty text; otherwise the table of the store's bills |
| `BillsPage.BillsPage.constructor` | frontend/src/pages/Bills.tsx:49-57 | dialog closed, no bill being edited, all five form fields empty |
| `BillsPage.BillsPage.FetchBills` | frontend/src/pages/Bills.tsx:63-75 | the load's dispatch order; dialog state untouched; the page then shows the table of the loaded list or the failure message |
| `BillsPage.BillsPage.HandleOpen` | frontend/src/pages/Bills.tsx:77-98 | opens the dialog; editing a bill copies its title, description and category; a new bill clears all five fields |
| `BillsPage.BillsPage.HandleClose` | frontend/src/pages/Bills.tsx:100-103 | closes the dialog and clears the edited bill; the form keeps its values |
| `BillsPage.BillsPage.HandleSubmit` | frontend/src/pages/Bills.tsx:105-140 | sends one request: PUT to the edited bill's id when editing, otherwise POST, with the form as body; on success one update (when editing) or one add of the server's bill, then the dialog closes; on failure nothing is dispatched and the store, dialog and form stay as they were |
| `BillsPage.BillsPage.HandleDelete` | frontend/src/pages/Bills.tsx:142-153 | the delete is dispatched only after the request succeeds; a failure leaves the store unchanged |
| `Dashboard.WithStatus` | frontend/src/pages/Dashboard.tsx:44-45 | the status filter behind `PendingBills` and `OverdueBills`: a bill is kept exactly when it has the status; never longer than the list |
| `Dashboard.WithStatusCount` | frontend/src/pages/Dashboard.tsx:44-45 | the filter's length is the number of bills with that status |
| `Dashboard.StatusesPartition` | frontend/src/pages/Dashboard.tsx:44-45 | the pending, paid and overdue counts add up to the number of bills |
| `Dashboard.PendingPlusOverdueAtMostAll` | frontend/src/pages/Dashboard.tsx:44-45 | pending count plus overdue count is at most the number of bills |
| `Dashboard.Recent` | frontend/src/pages/Dashboard.tsx:124 | the recent list is a prefix of the bills, of length min(5, number of bills) |
| `Dashboard.SelectView` | frontend/src/pages/Dashboard.tsx:47-63 | spinner before error text before summary; the summary's counts are the pending and overdue counts; its recent list is `Recent` of the bills, the `slice(0, 5)` |
| `Dashboard.DashboardPage.FetchBills` | frontend/src/pages/Dashboard.tsx:25-41 | the same start, request, success-or-failure order and fallback as the bill list; the page then shows the summary of the loaded list or the message |
| `Register.WithField` | frontend/src/pages/Register.tsx:25-30 | the named field takes the value; the other three keep theirs |
| `Register.FailureMessage` | frontend/src/pages/Register.tsx:51 | the failure message is never empty; it is either the server detail or 'Registration failed' |
| `Register.RegisterPage.constructor` | frontend/src/pages/Register.tsx:15-22 | empty form, no error, not loading |
| `Register.RegisterPage.HandleChange` | frontend/src/pages/Register.tsx:25-30 | only the named field of the form changes |
| `Register.RegisterPage.SubmitStart` | frontend/src/pages/Register.tsx:32-48 | clears the error first; on mismatch sets 'Passwords do not match', sends nothing and leaves `loading` alone; otherwise sets `loading` and sends email, password and full name only |
| `Register.RegisterPage.SubmitSettled` | frontend/src/pages/Register.tsx:49-54 | success navigates to /login; failure sets the detail-or-fallback message; `loading` is false either way |
| `Register.RegisterPage.HandleSubmit` | frontend/src/pages/Register.tsx:32-55 | the whole submit: mismatch path, or one request followed by navigation or the failure message, with `loading` false at the end |

## Left out

- HTTP transport: URLs, the bearer token, status codes and JSON decoding are not modelled. Each request's outcome is a `Response` parameter.
- A `detail` that is not a text: FastAPI can return a list there, and the code would store it as the error. The model takes `detail` as an optional text.
- BillsPage.BillsPage.HandleOpen: `amount.toString()` and the `yyyy-MM-dd` date formatting are not modelled. The two formatted texts are parameters, and the bill's amount is an abstract type.
- BillsPage.BillsPage.HandleSubmit: the request body carries the amount as the form's text. The `parseFloat` conversion is left out, as floating point.
- The dashboard's `totalAmount` sum, `toFixed(2)` and the `date-fns` formatting of rows are floating point and display formatting.
- JSX layout is not modelled beyond the spinner / error / content choice and the rows and summaries shown. The `categories` list (frontend/src/pages/Bills.tsx:35-43) only feeds the select field's options, and that restriction is not modelled.
- Effect timing is not modelled: `useEffect` re-runs, overlapping loads, and requests that settle in another order. Each bill-page handler runs to completion with its outcome given. A load that lands between a submit's request and its response is therefore not captured. Register's submit is split at its one `await` into `SubmitStart` and `SubmitSettled`.
- `console.error` in the bill page's catch blocks, `e.preventDefault()` and routing are not modelled. Navigation is recorded only as a `Navigate("/login")` effect.
- Register.RegisterPage.HandleChange: input names other than the form's four would add a new key in JavaScript. The model's field names are exactly the four inputs.
- The submit button's `disabled={loading}` guard (frontend/src/pages/Register.tsx:127) is not modelled, so `HandleSubmit` accepts any state.
- The app shell (routing, theme, login, auth state) and the backend are not part of this model.
- Failed create, edit and delete requests are only logged with `console.error` (frontend/src/pages/Bills.tsx:137-139, 150-152); the model leaves the store, the dialog and the form unchanged.
- `addBill` does not check that the id is new (frontend/src/store/slices/billsSlice.ts:43-45); `AddBillUniqueIff` states when ids stay unique.
