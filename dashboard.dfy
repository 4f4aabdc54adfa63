/** The dashboard page: the same load as the bill list, and summaries of
    the store's bills (pending and overdue counts, the five most recent). */
module Dashboard {
  import opened Api
  import opened BillsSlice
  import opened BillsSync

  /** `bills.filter(bill => bill.status === status)`. */
  function WithStatus(bills: seq<Bill>, status: BillStatus): (r: seq<Bill>)
    ensures |r| <= |bills|
    ensures forall x :: x in r <==> x in bills && x.status == status
  {
    if bills == [] then []
    else if bills[0].status == status then [bills[0]] + WithStatus(bills[1..], status)
    else WithStatus(bills[1..], status)
  }

  /** The status of each bill, in order. */
  function Statuses(bills: seq<Bill>): (r: seq<BillStatus>)
    ensures |r| == |bills|
    ensures forall i :: 0 <= i < |bills| ==> r[i] == bills[i].status
  {
    seq(|bills|, i requires 0 <= i < |bills| => bills[i].status)
  }

  function PendingBills(bills: seq<Bill>): seq<Bill> {
    WithStatus(bills, Pending)
  }

  function OverdueBills(bills: seq<Bill>): seq<Bill> {
    WithStatus(bills, Overdue)
  }

  /** The filter's length is the number of bills with that status. */
  lemma {:induction false} WithStatusCount(bills: seq<Bill>, status: BillStatus)
    ensures |WithStatus(bills, status)| == multiset(Statuses(bills))[status]
  {
    if bills != [] {
      WithStatusCount(bills[1..], status);
      assert Statuses(bills) == [bills[0].status] + Statuses(bills[1..]);
    }
  }

  /** Each bill has exactly one status, so the three filters split the list. */
  lemma {:induction false} StatusesPartition(bills: seq<Bill>)
    ensures |WithStatus(bills, Pending)| + |WithStatus(bills, Paid)| + |WithStatus(bills, Overdue)| == |bills|
  {
    if bills != [] {
      StatusesPartition(bills[1..]);
    }
  }

  /** The pending and overdue counts together never exceed the number of bills. */
  lemma PendingPlusOverdueAtMostAll(bills: seq<Bill>)
    ensures |PendingBills(bills)| + |OverdueBills(bills)| <= |bills|
  {
    StatusesPartition(bills);
  }

  /** `bills.slice(0, 5)`: the first five bills in store order, or all of
      them when there are fewer. */
  function Recent(bills: seq<Bill>): (r: seq<Bill>)
    ensures r <= bills
    ensures |r| == if |bills| < 5 then |bills| else 5
  {
    if |bills| < 5 then bills else bills[..5]
  }

  /** What the page renders. */
  datatype DashboardView =
    | Spinner
    | ErrorText(message: string)
    | Summary(pendingCount: nat, overdueCount: nat, recent: seq<Bill>)

  /** The spinner while loading; else a set error's text; else the summary. */
  function SelectView(s: BillsState): (v: DashboardView)
    ensures v.Spinner? <==> s.loading
    ensures v.ErrorText? <==> !s.loading && Truthy(s.error)
    ensures v.ErrorText? ==> s.error == Some(v.message) && v.message != ""
    ensures v.Summary? ==>
              && v.pendingCount == multiset(Statuses(s.bills))[Pending]
              && v.overdueCount == multiset(Statuses(s.bills))[Overdue]
              && v.pendingCount + v.overdueCount <= |s.bills|
              && v.recent == Recent(s.bills)
  {
    if s.loading then Spinner
    else if Truthy(s.error) then ErrorText(s.error.value)
    else
      WithStatusCount(s.bills, Pending);
      WithStatusCount(s.bills, Overdue);
      PendingPlusOverdueAtMostAll(s.bills);
      Summary(|PendingBills(s.bills)|, |OverdueBills(s.bills)|, Recent(s.bills))
  }

  /** The dashboard component: the store it reads and the ghost log of its effects. */
  class DashboardPage {
    const store: BillsStore
    ghost var effects: seq<Effect>

    constructor (store: BillsStore)
      ensures this.store == store && effects == []
    {
      this.store := store;
      effects := [];
    }

    /** The `fetchBills` effect: the same start, request, success-or-failure
        sequence and fallback message as the bill list page. */
    method FetchBills(response: Response<seq<Bill>>)
      requires store.Valid()
      modifies this, store
      ensures store.Valid()
      ensures effects == old(effects) + LoadEffects(response)
      ensures store.dispatched == old(store.dispatched) + [FetchBillsStart, LoadEnd(response)]
      ensures response.Ok? ==> store.bills == response.payload
      ensures response.Err? ==> store.bills == old(store.bills)
      ensures SelectView(store.State()) ==
                match response
                case Ok(list) =>
                  Summary(|PendingBills(list)|, |OverdueBills(list)|, Recent(list))
                case Err(detail) => ErrorText(LoadFailureMessage(detail))
    {
      var performed := Load(store, response);
      effects := effects + performed;
    }
  }
}
