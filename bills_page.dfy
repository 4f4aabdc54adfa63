/** The bill list page: the load on mount, the add/edit dialog, delete,
    and the choice between spinner, error text and table. */
module BillsPage {
  import opened Api
  import opened BillsSlice
  import opened BillsSync

  const EmptyForm: BillForm := BillForm("", "", "", "", "")

  /** What the page renders. */
  datatype View = Spinner | ErrorText(message: string) | Table(rows: seq<Bill>)

  /** The spinner while loading, whatever the error; else a set error's
      text; else the table of the store's bills in store order. */
  function SelectView(s: BillsState): (v: View)
    ensures v.Spinner? <==> s.loading
    ensures v.ErrorText? <==> !s.loading && Truthy(s.error)
    ensures v.ErrorText? ==> s.error == Some(v.message) && v.message != ""
    ensures v.Table? ==> v.rows == s.bills
  {
    if s.loading then Spinner
    else if Truthy(s.error) then ErrorText(s.error.value)
    else Table(s.bills)
  }

  /** The page component: the store it is connected to, its dialog state,
      and the ghost log of its effects. */
  class BillsPage {
    const store: BillsStore
    var open: bool
    var editingBill: Option<Bill>
    var formData: BillForm
    ghost var effects: seq<Effect>

    constructor (store: BillsStore)
      ensures this.store == store
      ensures !open && editingBill == None && formData == EmptyForm && effects == []
    {
      this.store := store;
      open := false;
      editingBill := None;
      formData := EmptyForm;
      effects := [];
    }

    /** `fetchBills`: start, request, then success with the list or failure
        with the message; the page then shows the table or the message. */
    method FetchBills(response: Response<seq<Bill>>)
      requires store.Valid()
      modifies this, store
      ensures store.Valid()
      ensures effects == old(effects) + LoadEffects(response)
      ensures store.dispatched == old(store.dispatched) + [FetchBillsStart, LoadEnd(response)]
      ensures open == old(open) && editingBill == old(editingBill) && formData == old(formData)
      ensures response.Ok? ==> store.bills == response.payload
      ensures response.Err? ==> store.bills == old(store.bills)
      ensures SelectView(store.State()) ==
                match response
                case Ok(list) => Table(list)
                case Err(detail) => ErrorText(LoadFailureMessage(detail))
    {
      var performed := Load(store, response);
      effects := effects + performed;
    }

    /** `handleOpen(bill)` for editing, `handleOpen()` for a new bill. The
        formatted amount and due date of the edited bill are passed in. */
    method HandleOpen(bill: Option<Bill>, amountText: string, dueDateText: string)
      modifies this
      ensures open && editingBill == bill
      ensures bill.None? ==> formData == EmptyForm
      ensures bill.Some? ==>
                formData.title == bill.value.title &&
                formData.description == bill.value.description &&
                formData.category == bill.value.category &&
                formData.amount == amountText && formData.due_date == dueDateText
      ensures effects == old(effects)
    {
      if bill.Some? {
        var b := bill.value;
        editingBill := Some(b);
        formData := BillForm(b.title, b.description, amountText, dueDateText, b.category);
      } else {
        editingBill := None;
        formData := EmptyForm;
      }
      open := true;
    }

    /** `handleClose`: the form keeps what was typed. */
    method HandleClose()
      modifies this
      ensures !open && editingBill == None
      ensures formData == old(formData) && effects == old(effects)
    {
      open := false;
      editingBill := None;
    }

    /** The request `handleSubmit` sends for the current dialog state. */
    function SubmitRequest(): (req: Request)
      reads this
    {
      if editingBill.Some? then PutBill(editingBill.value.id, formData) else PostBill(formData)
    }

    /** `handleSubmit`: PUT when editing, POST otherwise. On success the
        server's bill is dispatched as an update or an add (never both) and
        the dialog closes; on failure nothing is dispatched and the dialog
        stays as it was. */
    method HandleSubmit(response: Response<Bill>)
      requires store.Valid()
      modifies this, store
      ensures store.Valid()
      ensures formData == old(formData)
      ensures response.Ok? ==>
                var act := if old(editingBill).Some? then UpdateBill(response.payload)
                           else AddBill(response.payload);
                && effects == old(effects) + [Send(old(SubmitRequest())), Dispatch(act)]
                && store.dispatched == old(store.dispatched) + [act]
                && store.State() == Reduce(old(store.State()), act)
                && !open && editingBill == None
      ensures response.Err? ==>
                && effects == old(effects) + [Send(old(SubmitRequest()))]
                && store.dispatched == old(store.dispatched)
                && store.State() == old(store.State())
                && open == old(open) && editingBill == old(editingBill)
    {
      effects := effects + [Send(SubmitRequest())];
      match response
      case Ok(saved) =>
        if editingBill.Some? {
          store.UpdateBill(saved);
          effects := effects + [Dispatch(UpdateBill(saved))];
        } else {
          store.AddBill(saved);
          effects := effects + [Dispatch(AddBill(saved))];
        }
        HandleClose();
      case Err(_) =>
    }

    /** `handleDelete(id)`: the bill leaves the store only after the
        request succeeds. */
    method HandleDelete(id: int, response: Response<()>)
      requires store.Valid()
      modifies this, store
      ensures store.Valid()
      ensures open == old(open) && editingBill == old(editingBill) && formData == old(formData)
      ensures response.Ok? ==>
                && effects == old(effects) + [Send(DeleteBillRequest(id)), Dispatch(DeleteBill(id))]
                && store.dispatched == old(store.dispatched) + [DeleteBill(id)]
                && store.bills == WithoutId(old(store.bills), id)
                && store.loading == old(store.loading) && store.error == old(store.error)
      ensures response.Err? ==>
                && effects == old(effects) + [Send(DeleteBillRequest(id))]
                && store.dispatched == old(store.dispatched)
                && store.State() == old(store.State())
    {
      effects := effects + [Send(DeleteBillRequest(id))];
      if response.Ok? {
        store.DeleteBill(id);
        effects := effects + [Dispatch(DeleteBill(id))];
      }
    }
  }
}
