/** The ledger of a consistent database adds up. */
module Books {
  import opened Model
  import opened Status

  /** The sum of `weight` over a set of orders. */
  ghost function SumOver(s: set<OrderId>, weight: map<OrderId, nat>): nat
    requires s <= weight.Keys
    decreases s
  {
    if s == {} then 0
    else
      var o :| o in s;
      weight[o] + SumOver(s - {o}, weight)
  }

  lemma {:induction false} SumSplit(s: set<OrderId>, weight: map<OrderId, nat>, o: OrderId)
    requires s <= weight.Keys && o in s
    ensures SumOver(s, weight) == weight[o] + SumOver(s - {o}, weight)
    decreases s
  {
    var x :| x in s && SumOver(s, weight) == weight[x] + SumOver(s - {x}, weight);
    if x != o {
      SumSplit(s - {x}, weight, o);
      SumSplit(s - {o}, weight, x);
      assert s - {x} - {o} == s - {o} - {x};
    }
  }

  /** The sum of `weight` over the entries of one kind. */
  ghost function Tally(ledger: seq<LedgerEntry>, kind: EntryKind, weight: map<OrderId, nat>): nat
    requires forall i :: 0 <= i < |ledger| ==> ledger[i].orderId in weight
  {
    if ledger == [] then 0
    else
      var e := ledger[|ledger| - 1];
      Tally(ledger[..|ledger| - 1], kind, weight) + if e.kind == kind then weight[e.orderId] else 0
  }

  /** If exactly the orders of `s` have an entry of a kind, and each has one, both sums agree. */
  lemma {:induction false} TallyIsSum(
    ledger: seq<LedgerEntry>, kind: EntryKind, s: set<OrderId>, weight: map<OrderId, nat>)
    requires s <= weight.Keys && forall i :: 0 <= i < |ledger| ==> ledger[i].orderId in weight
    requires forall o :: Count(ledger, o, kind) == if o in s then 1 else 0
    ensures Tally(ledger, kind, weight) == SumOver(s, weight)
  {
    if ledger == [] {
      forall o
        ensures o !in s
      {
        assert Count(ledger, o, kind) == 0;
      }
      assert s == {};
    } else {
      var front, e := ledger[..|ledger| - 1], ledger[|ledger| - 1];
      if e.kind == kind {
        assert Count(ledger, e.orderId, kind) == 1;
        forall o
          ensures Count(front, o, kind) == if o in s - {e.orderId} then 1 else 0
        {
          assert Count(ledger, o, kind) == Count(front, o, kind) + if e.orderId == o then 1 else 0;
        }
        TallyIsSum(front, kind, s - {e.orderId}, weight);
        SumSplit(s, weight, e.orderId);
      } else {
        forall o
          ensures Count(front, o, kind) == if o in s then 1 else 0
        {
          assert Count(ledger, o, kind) == Count(front, o, kind);
        }
        TallyIsSum(front, kind, s, weight);
      }
    }
  }

  /** The amounts of all entries of one kind. */
  function Amounts(ledger: seq<LedgerEntry>, kind: EntryKind): nat {
    if ledger == [] then 0
    else
      var e := ledger[|ledger| - 1];
      Amounts(ledger[..|ledger| - 1], kind) + if e.kind == kind then e.amount else 0
  }

  function Entries(ledger: seq<LedgerEntry>, kind: EntryKind): nat {
    if ledger == [] then 0
    else Entries(ledger[..|ledger| - 1], kind) + if ledger[|ledger| - 1].kind == kind then 1 else 0
  }

  function PaidOrders(db: Db): set<OrderId> {
    set o | o in db.orders && db.orders[o].paidAt.Some?
  }

  function DeliveredOrders(db: Db): set<OrderId> {
    set o | o in db.orders && db.orders[o].status.OrderDelivered?
  }

  function AmountsOf(orders: map<OrderId, Order>): map<OrderId, nat> {
    map o | o in orders :: orders[o].amount
  }

  lemma {:induction false} AmountsAreTally(ledger: seq<LedgerEntry>, orders: map<OrderId, Order>)
    requires forall i :: 0 <= i < |ledger| ==> EntryOk(orders, ledger[i])
    requires forall i :: 0 <= i < |ledger| ==> ledger[i].orderId in AmountsOf(orders)
    ensures Amounts(ledger, EntryPayment) == Tally(ledger, EntryPayment, AmountsOf(orders))
  {
    if ledger != [] {
      assert EntryOk(orders, ledger[|ledger| - 1]);
      AmountsAreTally(ledger[..|ledger| - 1], orders);
    }
  }

  lemma {:induction false} EntriesAreTally(ledger: seq<LedgerEntry>, kind: EntryKind, ones: map<OrderId, nat>)
    requires forall i :: 0 <= i < |ledger| ==> ledger[i].orderId in ones
    requires forall o :: o in ones ==> ones[o] == 1
    ensures Entries(ledger, kind) == Tally(ledger, kind, ones)
  {
    if ledger != [] {
      EntriesAreTally(ledger[..|ledger| - 1], kind, ones);
    }
  }

  lemma {:induction false} SumOfOnes(s: set<OrderId>, ones: map<OrderId, nat>)
    requires s <= ones.Keys && forall o :: o in ones ==> ones[o] == 1
    ensures SumOver(s, ones) == |s|
    decreases s
  {
    if s != {} {
      var o :| o in s;
      SumSplit(s, ones, o);
      SumOfOnes(s - {o}, ones);
    }
  }

  lemma LedgerCounts(db: Db)
    requires Consistent(db)
    ensures forall o :: Count(db.ledger, o, EntryPayment) == if o in PaidOrders(db) then 1 else 0
    ensures forall o :: Count(db.ledger, o, EntryDelivery) == if o in DeliveredOrders(db) then 1 else 0
  {
    forall o
      ensures Count(db.ledger, o, EntryPayment) == if o in PaidOrders(db) then 1 else 0
      ensures Count(db.ledger, o, EntryDelivery) == if o in DeliveredOrders(db) then 1 else 0
    {
      if o in db.orders {
        assert OrderOk(db, o);
      } else {
        NoEntries(db.ledger, db.orders, o, EntryPayment);
        NoEntries(db.ledger, db.orders, o, EntryDelivery);
      }
    }
  }

  lemma BooksBalance(db: Db)
    requires Consistent(db)
    ensures Amounts(db.ledger, EntryPayment) == SumOver(PaidOrders(db), AmountsOf(db.orders))
    ensures Entries(db.ledger, EntryPayment) == |PaidOrders(db)|
    ensures Entries(db.ledger, EntryDelivery) == |DeliveredOrders(db)|
    ensures forall o :: Count(db.ledger, o, EntryPayment) == if o in PaidOrders(db) then 1 else 0
    ensures forall o :: Count(db.ledger, o, EntryDelivery) == if o in DeliveredOrders(db) then 1 else 0
  {
    assert forall i :: 0 <= i < |db.ledger| ==> EntryOk(db.orders, db.ledger[i]);
    LedgerCounts(db);
    var ones: map<OrderId, nat> := map o | o in db.orders :: 1;
    AmountsAreTally(db.ledger, db.orders);
    TallyIsSum(db.ledger, EntryPayment, PaidOrders(db), AmountsOf(db.orders));
    EntriesAreTally(db.ledger, EntryPayment, ones);
    TallyIsSum(db.ledger, EntryPayment, PaidOrders(db), ones);
    SumOfOnes(PaidOrders(db), ones);
    EntriesAreTally(db.ledger, EntryDelivery, ones);
    TallyIsSum(db.ledger, EntryDelivery, DeliveredOrders(db), ones);
    SumOfOnes(DeliveredOrders(db), ones);
  }
}
