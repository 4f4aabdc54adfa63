/** The `bills` slice of the client store: a list of bills, a loading flag
    and an error text, changed only by six named reducers.

    `Reduce` is the slice's reducer as a function on state values;
    `BillsStore` holds the state in fields and runs each reducer in place,
    as the slice's reducers do on their draft state. */
module BillsSlice {
  import opened Api

  /** A bill amount. The store only stores and moves amounts, so they stay abstract. */
  type Amount(==, !new)

  datatype BillStatus = Pending | Paid | Overdue

  datatype Bill = Bill(
    id: int,
    title: string,
    description: string,
    amount: Amount,
    due_date: string,
    status: BillStatus,
    category: string,
    created_at: string,
    user_id: int)

  datatype BillsState = BillsState(bills: seq<Bill>, loading: bool, error: Option<string>)

  /** The slice's action creators. */
  datatype Action =
    | FetchBillsStart
    | FetchBillsSuccess(payload: seq<Bill>)
    | FetchBillsFailure(message: string)
    | AddBill(bill: Bill)
    | UpdateBill(bill: Bill)
    | DeleteBill(id: int)

  function InitialState(): BillsState {
    BillsState([], false, None)
  }

  /** The store's invariant: while a load is in flight no error is shown. */
  ghost predicate Consistent(s: BillsState) {
    s.loading ==> s.error == None
  }

  /** `bills.findIndex(bill => bill.id === id)`. */
  function FirstIndex(bills: seq<Bill>, id: int): (i: int)
    ensures -1 <= i < |bills|
    ensures i == -1 <==> forall j :: 0 <= j < |bills| ==> bills[j].id != id
    ensures 0 <= i ==> bills[i].id == id && forall j :: 0 <= j < i ==> bills[j].id != id
  {
    if bills == [] then -1
    else if bills[0].id == id then 0
    else
      var k := FirstIndex(bills[1..], id);
      if k == -1 then -1 else k + 1
  }

  /** The list after `updateBill(b)`: the first bill with `b`'s id is
      replaced by `b` at the same index; without such a bill nothing changes. */
  function ReplaceFirstById(bills: seq<Bill>, b: Bill): (r: seq<Bill>)
    ensures |r| == |bills|
    ensures (forall j :: 0 <= j < |bills| ==> bills[j].id != b.id) ==> r == bills
    ensures FirstIndex(bills, b.id) != -1 ==> r[FirstIndex(bills, b.id)] == b
    ensures forall j :: 0 <= j < |bills| && j != FirstIndex(bills, b.id) ==> r[j] == bills[j]
  {
    var i := FirstIndex(bills, b.id);
    if i == -1 then bills else bills[i := b]
  }

  /** `bills.filter(bill => bill.id !== id)`. */
  function WithoutId(bills: seq<Bill>, id: int): (r: seq<Bill>)
    ensures |r| <= |bills|
    ensures forall x :: x in r <==> x in bills && x.id != id
  {
    if bills == [] then []
    else if bills[0].id == id then WithoutId(bills[1..], id)
    else [bills[0]] + WithoutId(bills[1..], id)
  }

  /** The slice's reducer. */
  function Reduce(s: BillsState, a: Action): (r: BillsState)
    ensures Consistent(s) ==> Consistent(r)
    ensures !(a.FetchBillsStart? || a.FetchBillsSuccess? || a.FetchBillsFailure?) ==>
              r.loading == s.loading && r.error == s.error
  {
    match a
    case FetchBillsStart => s.(loading := true, error := None)
    case FetchBillsSuccess(payload) => s.(loading := false, bills := payload)
    case FetchBillsFailure(message) => s.(loading := false, error := Some(message))
    case AddBill(b) => s.(bills := s.bills + [b])
    case UpdateBill(b) => s.(bills := ReplaceFirstById(s.bills, b))
    case DeleteBill(id) => s.(bills := WithoutId(s.bills, id))
  }

  /** The state reached from `s` by dispatching `acts` in order. */
  function ReduceAll(s: BillsState, acts: seq<Action>): BillsState {
    if acts == [] then s
    else Reduce(ReduceAll(s, acts[..|acts| - 1]), acts[|acts| - 1])
  }

  lemma ReduceAllSnoc(s: BillsState, acts: seq<Action>, a: Action)
    ensures ReduceAll(s, acts + [a]) == Reduce(ReduceAll(s, acts), a)
  {
  }

  // ---------------------------------------------------------------------
  // The store's invariant over every reachable state

  /** Every state reached from the initial state has no error while loading. */
  lemma {:induction false} ReachableIsConsistent(acts: seq<Action>)
    ensures Consistent(ReduceAll(InitialState(), acts))
  {
    if acts != [] {
      ReachableIsConsistent(acts[..|acts| - 1]);
    }
  }

  predicate EndsLoad(a: Action) {
    a.FetchBillsSuccess? || a.FetchBillsFailure?
  }

  predicate WritesError(a: Action) {
    a.FetchBillsStart? || a.FetchBillsFailure?
  }

  /** No success or failure comes after position `i`. */
  ghost predicate NoLoadEndAfter(acts: seq<Action>, i: nat) {
    forall j :: i < j < |acts| ==> !EndsLoad(acts[j])
  }

  /** No load start and no failure comes after position `i`. */
  ghost predicate NoErrorWriteAfter(acts: seq<Action>, i: nat) {
    forall j :: i < j < |acts| ==> !WritesError(acts[j])
  }

  /** Some `fetchBillsStart` in `acts` has no success or failure after it. */
  ghost predicate LoadOutstanding(acts: seq<Action>) {
    exists i :: 0 <= i < |acts| && acts[i].FetchBillsStart? && NoLoadEndAfter(acts, i)
  }

  /** Some `fetchBillsFailure(m)` in `acts` has no start and no other failure after it. */
  ghost predicate LastFailureIs(acts: seq<Action>, m: string) {
    exists i :: 0 <= i < |acts| && acts[i] == FetchBillsFailure(m) && NoErrorWriteAfter(acts, i)
  }

  lemma NoLoadEndAfterSnoc(acts: seq<Action>, a: Action, i: nat)
    requires 0 <= i < |acts|
    ensures NoLoadEndAfter(acts + [a], i) <==> NoLoadEndAfter(acts, i) && !EndsLoad(a)
  {
    var r := acts + [a];
    assert r[|acts|] == a;
    assert forall j :: i < j < |acts| ==> r[j] == acts[j];
  }

  lemma NoErrorWriteAfterSnoc(acts: seq<Action>, a: Action, i: nat)
    requires 0 <= i < |acts|
    ensures NoErrorWriteAfter(acts + [a], i) <==> NoErrorWriteAfter(acts, i) && !WritesError(a)
  {
    var r := acts + [a];
    assert r[|acts|] == a;
    assert forall j :: i < j < |acts| ==> r[j] == acts[j];
  }

  /** `loading` is true exactly between a load start and its success or failure. */
  lemma {:induction false} LoadingIffOutstanding(acts: seq<Action>)
    ensures ReduceAll(InitialState(), acts).loading <==> LoadOutstanding(acts)
  {
    if acts != [] {
      var n := |acts| - 1;
      var prefix, a := acts[..n], acts[n];
      assert acts == prefix + [a];
      LoadingIffOutstanding(prefix);
      if a.FetchBillsStart? {
        assert NoLoadEndAfter(acts, n);
      } else {
        if LoadOutstanding(prefix) && !EndsLoad(a) {
          var i :| 0 <= i < |prefix| && prefix[i].FetchBillsStart? && NoLoadEndAfter(prefix, i);
          NoLoadEndAfterSnoc(prefix, a, i);
          assert acts[i] == prefix[i];
        }
        if LoadOutstanding(acts) {
          var i :| 0 <= i < |acts| && acts[i].FetchBillsStart? && NoLoadEndAfter(acts, i);
          assert i != n;
          NoLoadEndAfterSnoc(prefix, a, i);
          assert prefix[i] == acts[i];
        }
      }
    }
  }

  /** `error` is `m` exactly when a failure with `m` was dispatched and no
      load start (and no other failure) came after it. */
  lemma {:induction false} ErrorIffLastFailure(acts: seq<Action>, m: string)
    ensures ReduceAll(InitialState(), acts).error == Some(m) <==> LastFailureIs(acts, m)
  {
    if acts != [] {
      var n := |acts| - 1;
      var prefix, a := acts[..n], acts[n];
      assert acts == prefix + [a];
      ErrorIffLastFailure(prefix, m);
      if a == FetchBillsFailure(m) {
        assert NoErrorWriteAfter(acts, n);
      } else {
        if LastFailureIs(prefix, m) && !WritesError(a) {
          var i :| 0 <= i < |prefix| && prefix[i] == FetchBillsFailure(m) && NoErrorWriteAfter(prefix, i);
          NoErrorWriteAfterSnoc(prefix, a, i);
          assert acts[i] == prefix[i];
        }
        if LastFailureIs(acts, m) {
          var i :| 0 <= i < |acts| && acts[i] == FetchBillsFailure(m) && NoErrorWriteAfter(acts, i);
          assert i != n;
          NoErrorWriteAfterSnoc(prefix, a, i);
          assert prefix[i] == acts[i];
        }
      }
    }
  }

  // ---------------------------------------------------------------------
  // Properties of the list transitions

  /** Ids never repeat in the list. */
  ghost predicate UniqueIds(bills: seq<Bill>) {
    forall i, j :: 0 <= i < j < |bills| ==> bills[i].id != bills[j].id
  }

  /** `addBill` does not check ids: appending keeps the ids unique exactly
      when the new bill's id is not already in the list. */
  lemma AddBillUniqueIff(bills: seq<Bill>, b: Bill)
    ensures UniqueIds(bills + [b]) <==>
            UniqueIds(bills) && forall j :: 0 <= j < |bills| ==> bills[j].id != b.id
  {
    var r := bills + [b];
    assert forall j :: 0 <= j < |bills| ==> r[j] == bills[j];
    if UniqueIds(r) {
      forall j | 0 <= j < |bills| ensures bills[j].id != b.id {
        assert r[j] == bills[j] && r[|bills|] == b;
      }
    }
  }

  /** `updateBill` keeps the id at every position. */
  lemma ReplaceFirstByIdKeepsIds(bills: seq<Bill>, b: Bill)
    ensures forall j :: 0 <= j < |bills| ==> ReplaceFirstById(bills, b)[j].id == bills[j].id
  {
  }

  /** Repeating an `updateBill` with the same bill changes nothing more. */
  lemma ReplaceFirstByIdIdempotent(bills: seq<Bill>, b: Bill)
    ensures ReplaceFirstById(ReplaceFirstById(bills, b), b) == ReplaceFirstById(bills, b)
  {
  }

  /** With unique ids, `updateBill` replaces the one bill with that id. */
  lemma ReplaceFirstByIdUnique(bills: seq<Bill>, b: Bill)
    requires UniqueIds(bills)
    ensures UniqueIds(ReplaceFirstById(bills, b))
    ensures forall j :: 0 <= j < |bills| ==>
              ReplaceFirstById(bills, b)[j] == if bills[j].id == b.id then b else bills[j]
  {
  }

  /** `deleteBill` keeps the surviving bills in their original order:
      filtering a concatenation filters each part. */
  lemma {:induction false} WithoutIdAppend(a: seq<Bill>, b: seq<Bill>, id: int)
    ensures WithoutId(a + b, id) == WithoutId(a, id) + WithoutId(b, id)
  {
    if a != [] {
      assert (a + b)[1..] == a[1..] + b;
      WithoutIdAppend(a[1..], b, id);
    } else {
      assert a + b == b;
    }
  }

  /** `deleteBill` of an absent id changes nothing. */
  lemma {:induction false} WithoutIdAbsent(bills: seq<Bill>, id: int)
    requires forall j :: 0 <= j < |bills| ==> bills[j].id != id
    ensures WithoutId(bills, id) == bills
  {
    if bills != [] {
      WithoutIdAbsent(bills[1..], id);
      assert [bills[0]] + bills[1..] == bills;
    }
  }

  /** `deleteBill` is idempotent. */
  lemma WithoutIdIdempotent(bills: seq<Bill>, id: int)
    ensures WithoutId(WithoutId(bills, id), id) == WithoutId(bills, id)
  {
  }

  /** `deleteBill` drops every copy of a bill with the id and keeps every
      copy of every other bill. */
  lemma {:induction false} WithoutIdMultiset(bills: seq<Bill>, id: int, x: Bill)
    ensures multiset(WithoutId(bills, id))[x] == if x.id == id then 0 else multiset(bills)[x]
  {
    if bills != [] {
      WithoutIdMultiset(bills[1..], id, x);
      assert bills == [bills[0]] + bills[1..];
    }
  }

  /** `deleteBill` keeps ids unique. */
  lemma {:induction false} WithoutIdUnique(bills: seq<Bill>, id: int)
    requires UniqueIds(bills)
    ensures UniqueIds(WithoutId(bills, id))
  {
    if bills != [] {
      var rest := bills[1..];
      assert UniqueIds(rest) by {
        forall i, j | 0 <= i < j < |rest| ensures rest[i].id != rest[j].id {
          assert rest[i] == bills[i + 1] && rest[j] == bills[j + 1];
        }
      }
      WithoutIdUnique(rest, id);
      if bills[0].id != id {
        var r := WithoutId(rest, id);
        forall k | 0 <= k < |r| ensures r[k].id != bills[0].id {
          assert r[k] in rest;
          var m :| 0 <= m < |rest| && rest[m] == r[k];
          assert rest[m] == bills[m + 1];
        }
        assert WithoutId(bills, id) == [bills[0]] + r;
      }
    }
  }

  /** A load of bill 1, an add of bill 2, an edit of bill 1 and a delete of
      bill 1 leave only bill 2, with no load running and no error. */
  lemma LoadAddEditDeleteScenario(b1: Bill, b2: Bill, b1Edited: Bill)
    requires b1.id == 1 && b2.id == 2 && b1Edited.id == 1
    ensures ReduceAll(InitialState(),
              [FetchBillsStart, FetchBillsSuccess([b1]), AddBill(b2), UpdateBill(b1Edited), DeleteBill(1)])
            == BillsState([b2], false, None)
  {
    var init := InitialState();
    var a1, a2, a3, a4, a5 :=
      FetchBillsStart, FetchBillsSuccess([b1]), AddBill(b2), UpdateBill(b1Edited), DeleteBill(1);
    ReduceAllSnoc(init, [], a1);
    assert [] + [a1] == [a1];
    ReduceAllSnoc(init, [a1], a2);
    assert [a1] + [a2] == [a1, a2];
    ReduceAllSnoc(init, [a1, a2], a3);
    assert [a1, a2] + [a3] == [a1, a2, a3];
    assert ReduceAll(init, [a1, a2, a3]).bills == [b1, b2];
    ReduceAllSnoc(init, [a1, a2, a3], a4);
    assert [a1, a2, a3] + [a4] == [a1, a2, a3, a4];
    assert FirstIndex([b1, b2], 1) == 0;
    assert ReduceAll(init, [a1, a2, a3, a4]).bills == [b1Edited, b2];
    ReduceAllSnoc(init, [a1, a2, a3, a4], a5);
    assert [a1, a2, a3, a4] + [a5] == [a1, a2, a3, a4, a5];
    assert WithoutId([b1Edited, b2], 1) == [b2] by {
      assert [b1Edited, b2][1..] == [b2];
      assert [b2][1..] == [];
    }
  }

  // ---------------------------------------------------------------------
  // The store object

  /** The slice's state as the store holds it. Every reducer changes the
      fields in place and records its action in the ghost log `dispatched`. */
  class BillsStore {
    var bills: seq<Bill>
    var loading: bool
    var error: Option<string>
    ghost var dispatched: seq<Action>

    function State(): BillsState
      reads this
    {
      BillsState(bills, loading, error)
    }

    /** The fields are what the dispatched actions make of the initial state. */
    ghost predicate Valid()
      reads this
    {
      State() == ReduceAll(InitialState(), dispatched) && Consistent(State())
    }

    /** `initialState`. */
    constructor ()
      ensures Valid() && dispatched == []
      ensures bills == [] && !loading && error == None
    {
      bills := [];
      loading := false;
      error := None;
      dispatched := [];
    }

    method FetchBillsStart()
      requires Valid()
      modifies this
      ensures Valid() && dispatched == old(dispatched) + [Action.FetchBillsStart]
      ensures loading && error == None && bills == old(bills)
    {
      ReduceAllSnoc(InitialState(), dispatched, Action.FetchBillsStart);
      loading := true;
      error := None;
      dispatched := dispatched + [Action.FetchBillsStart];
    }

    method FetchBillsSuccess(payload: seq<Bill>)
      requires Valid()
      modifies this
      ensures Valid() && dispatched == old(dispatched) + [Action.FetchBillsSuccess(payload)]
      ensures !loading && bills == payload && error == old(error)
    {
      ReduceAllSnoc(InitialState(), dispatched, Action.FetchBillsSuccess(payload));
      loading := false;
      bills := payload;
      dispatched := dispatched + [Action.FetchBillsSuccess(payload)];
    }

    method FetchBillsFailure(message: string)
      requires Valid()
      modifies this
      ensures Valid() && dispatched == old(dispatched) + [Action.FetchBillsFailure(message)]
      ensures !loading && error == Some(message) && bills == old(bills)
    {
      ReduceAllSnoc(InitialState(), dispatched, Action.FetchBillsFailure(message));
      loading := false;
      error := Some(message);
      dispatched := dispatched + [Action.FetchBillsFailure(message)];
    }

    method AddBill(b: Bill)
      requires Valid()
      modifies this
      ensures Valid() && dispatched == old(dispatched) + [Action.AddBill(b)]
      ensures bills == old(bills) + [b] && loading == old(loading) && error == old(error)
    {
      ReduceAllSnoc(InitialState(), dispatched, Action.AddBill(b));
      bills := bills + [b];
      dispatched := dispatched + [Action.AddBill(b)];
    }

    method UpdateBill(b: Bill)
      requires Valid()
      modifies this
      ensures Valid() && dispatched == old(dispatched) + [Action.UpdateBill(b)]
      ensures bills == ReplaceFirstById(old(bills), b)
      ensures loading == old(loading) && error == old(error)
    {
      ReduceAllSnoc(InitialState(), dispatched, Action.UpdateBill(b));
      var index := FindIndex(bills, b.id);
      if index != -1 {
        bills := bills[index := b];
      }
      dispatched := dispatched + [Action.UpdateBill(b)];
    }

    method DeleteBill(id: int)
      requires Valid()
      modifies this
      ensures Valid() && dispatched == old(dispatched) + [Action.DeleteBill(id)]
      ensures bills == WithoutId(old(bills), id)
      ensures loading == old(loading) && error == old(error)
    {
      ReduceAllSnoc(InitialState(), dispatched, Action.DeleteBill(id));
      bills := WithoutId(bills, id);
      dispatched := dispatched + [Action.DeleteBill(id)];
    }
  }

  /** `findIndex` as a linear search: the first index holding `id`, or -1. */
  method FindIndex(bills: seq<Bill>, id: int) returns (index: int)
    ensures index == FirstIndex(bills, id)
  {
    index := 0;
    while index < |bills| && bills[index].id != id
      invariant 0 <= index <= |bills|
      invariant forall j :: 0 <= j < index ==> bills[j].id != id
    {
      index := index + 1;
    }
    if index == |bills| {
      index := -1;
    }
  }
}
