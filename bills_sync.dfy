/** What the pages send to the bill API, the order of their effects, and
    the load sequence that both the bill list and the dashboard run. */
module BillsSync {
  import opened Api
  import opened BillsSlice

  /** The editable fields of a bill, as the page's form holds them. */
  datatype BillForm = BillForm(
    title: string,
    description: string,
    amount: string,
    due_date: string,
    category: string)

  datatype Request =
    | GetBills
    | PostBill(body: BillForm)
    | PutBill(id: int, body: BillForm)
    | DeleteBillRequest(id: int)

  /** One observable step of a page handler: a dispatch to the store or a request sent. */
  datatype Effect = Dispatch(action: Action) | Send(request: Request)

  const LoadFallback: string := "Failed to fetch bills"

  /** The message a failed load stores: the server's detail when it is a
      non-empty text, the fixed fallback otherwise. It is never empty. */
  function LoadFailureMessage(detail: Option<string>): (m: string)
    ensures m != ""
    ensures Truthy(detail) ==> Some(m) == detail
    ensures !Truthy(detail) ==> m == LoadFallback
  {
    OrElse(detail, LoadFallback)
  }

  /** The action that ends a load: success with the response list, or
      failure with the load's message; exactly one of the two. */
  function LoadEnd(response: Response<seq<Bill>>): (a: Action)
    ensures EndsLoad(a)
    ensures a.FetchBillsSuccess? <==> response.Ok?
    ensures response.Ok? ==> a.payload == response.payload
    ensures response.Err? ==> a.message == LoadFailureMessage(response.detail)
  {
    match response
    case Ok(list) => FetchBillsSuccess(list)
    case Err(detail) => FetchBillsFailure(LoadFailureMessage(detail))
  }

  /** The effects of one load, in order: start, the list request, the end. */
  function LoadEffects(response: Response<seq<Bill>>): seq<Effect> {
    [Dispatch(FetchBillsStart), Send(GetBills), Dispatch(LoadEnd(response))]
  }

  /** Runs a load against `store` with the request's outcome `response`. */
  method Load(store: BillsStore, response: Response<seq<Bill>>) returns (effects: seq<Effect>)
    requires store.Valid()
    modifies store
    ensures store.Valid()
    ensures effects == LoadEffects(response)
    ensures store.dispatched == old(store.dispatched) + [FetchBillsStart, LoadEnd(response)]
    ensures !store.loading
    ensures response.Ok? ==> store.bills == response.payload && store.error == None
    ensures response.Err? ==>
              store.bills == old(store.bills) && store.error == Some(LoadFailureMessage(response.detail))
  {
    store.FetchBillsStart();
    effects := [Dispatch(FetchBillsStart), Send(GetBills)];
    match response
    case Ok(list) =>
      store.FetchBillsSuccess(list);
      effects := effects + [Dispatch(FetchBillsSuccess(list))];
    case Err(detail) =>
      var message := LoadFailureMessage(detail);
      store.FetchBillsFailure(message);
      effects := effects + [Dispatch(FetchBillsFailure(message))];
  }
}
