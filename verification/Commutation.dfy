/** A payment may arrive before its order: the outcome does not depend on when the order is created. */
module Commutation {
  import opened Prelude
  import opened Model
  import opened Payments
  import opened World
  import opened Safety
  import Outcome

  // ----- equality up to timestamps -----

  predicate SameOrder(a: Order, b: Order) {
    && a.sku == b.sku && a.amount == b.amount && a.currency == b.currency && a.status == b.status
    && (a.paidAt.Some? <==> b.paidAt.Some?) && (a.deliveredAt.Some? <==> b.deliveredAt.Some?)
  }

  predicate SameJob(a: Attempt, b: Attempt) {
    && a.requestId == b.requestId && a.provider == b.provider && a.status == b.status
    && a.code == b.code && a.attempts == b.attempts
    && (a.nextAt.Some? <==> b.nextAt.Some?) && (a.lockedAt.Some? <==> b.lockedAt.Some?)
  }

  ghost predicate SameLog(a: seq<EventRow>, b: seq<EventRow>) {
    && |a| == |b|
    && forall i :: 0 <= i < |a| ==> a[i].event == b[i].event && (a[i].processedAt.Some? <==> b[i].processedAt.Some?)
  }

  ghost predicate SameOrders(a: map<OrderId, Order>, b: map<OrderId, Order>) {
    a.Keys == b.Keys && forall o :: o in a ==> SameOrder(a[o], b[o])
  }

  ghost predicate SameJobs(a: map<OrderId, Attempt>, b: map<OrderId, Attempt>) {
    a.Keys == b.Keys && forall o :: o in a ==> SameJob(a[o], b[o])
  }

  /** The two databases differ in timestamps and in the order of ledger entries, and in nothing else. */
  ghost predicate Alike(a: Db, b: Db) {
    && a.products == b.products && a.keys == b.keys && a.issues == b.issues
    && multiset(a.ledger) == multiset(b.ledger)
    && SameLog(a.events, b.events)
    && SameOrders(a.orders, b.orders)
    && SameJobs(a.attempts, b.attempts)
  }

  lemma AlikeTransitive(a: Db, b: Db, c: Db)
    requires Alike(a, b) && Alike(b, c)
    ensures Alike(a, c)
  {
  }

  lemma AlikeSymmetric(a: Db, b: Db)
    requires Alike(a, b)
    ensures Alike(b, a)
  {
  }

  // ----- payments respect it -----

  lemma {:induction false} CountPositive(ledger: seq<LedgerEntry>, o: OrderId, kind: EntryKind)
    ensures Count(ledger, o, kind) > 0 <==> exists e :: e in ledger && e.orderId == o && e.kind == kind
  {
    if ledger != [] {
      CountPositive(ledger[..|ledger| - 1], o, kind);
      assert ledger == ledger[..|ledger| - 1] + [ledger[|ledger| - 1]];
    }
  }

  lemma InsertEntryAlike(a: seq<LedgerEntry>, b: seq<LedgerEntry>, e: LedgerEntry)
    requires multiset(a) == multiset(b)
    ensures multiset(InsertEntry(a, e)) == multiset(InsertEntry(b, e))
  {
    CountPositive(a, e.orderId, e.kind);
    CountPositive(b, e.orderId, e.kind);
    assert forall x :: x in a <==> x in multiset(a);
    assert forall x :: x in b <==> x in multiset(b);
  }

  lemma UpsertAlike(a: map<OrderId, Attempt>, b: map<OrderId, Attempt>, t: Time, u: Time, o: OrderId)
    requires SameJobs(a, b)
    ensures SameJobs(UpsertAttempt(a, t, o), UpsertAttempt(b, u, o))
  {
  }

  lemma ApplyPaidAlike(a: Db, b: Db, t: Time, u: Time, o: OrderId)
    requires Alike(a, b) && o in a.orders
    ensures Alike(ApplyPaid(a, t, o), ApplyPaid(b, u, o))
  {
    if !a.orders[o].status.IsFinal() {
      assert SameOrders(PayOrder(a.orders, t, o), PayOrder(b.orders, u, o));
      UpsertAlike(a.attempts, b.attempts, t, u, o);
      InsertEntryAlike(a.ledger, b.ledger, LedgerEntry(o, EntryPayment, a.orders[o].amount, a.orders[o].currency));
    }
  }

  lemma MarkAlike(a: seq<EventRow>, b: seq<EventRow>, id: string, t: Time, u: Time)
    requires SameLog(a, b)
    ensures SameLog(MarkProcessed(a, id, t), MarkProcessed(b, id, u))
  {
  }

  lemma ApplyFailedAlike(a: Db, b: Db, o: OrderId)
    requires Alike(a, b) && o in a.orders
    ensures Alike(ApplyFailed(a, o), ApplyFailed(b, o))
  {
  }

  lemma AppliedAlike(a: Db, b: Db, t: Time, u: Time, o: OrderId, e: Event)
    requires Alike(a, b) && o in a.orders
    ensures Alike(Applied(a, t, o, e), Applied(b, u, o, e))
  {
    ApplyPaidAlike(a, b, t, u, o);
    ApplyFailedAlike(a, b, o);
    assert SameOrder(a.orders[o], b.orders[o]);
  }

  lemma ApplyPaymentAlike(a: Db, b: Db, t: Time, u: Time, o: OrderId, e: Event)
    requires Alike(a, b) && o in a.orders
    ensures Alike(ApplyPayment(a, t, o, e), ApplyPayment(b, u, o, e))
  {
    var a', b' := Applied(a, t, o, e), Applied(b, u, o, e);
    AppliedAlike(a, b, t, u, o, e);
    MarkAlike(a'.events, b'.events, e.eventId, t, u);
  }

  lemma {:induction false} ApplyAllAlike(a: Db, b: Db, t: Time, u: Time, o: OrderId, es: seq<Event>)
    requires Alike(a, b) && o in a.orders
    ensures Alike(ApplyAll(a, t, o, es), ApplyAll(b, u, o, es))
  {
    if es != [] {
      var front := es[..|es| - 1];
      ApplyAllAlike(a, b, t, u, o, front);
      ApplyPaymentAlike(ApplyAll(a, t, o, front), ApplyAll(b, u, o, front), t, u, o, es[|es| - 1]);
    }
  }

  function Store(db: Db, r: EventRow): Db {
    db.(events := db.events + [r])
  }

  lemma StoreAlike(a: Db, b: Db, e: Event, t: Time, u: Time)
    requires Alike(a, b)
    ensures Alike(Store(a, EventRow(e, t, None)), Store(b, EventRow(e, u, None)))
  {
  }

  lemma SeenAlike(a: Db, b: Db, id: string)
    requires SameLog(a.events, b.events)
    ensures Seen(a.events, id) <==> Seen(b.events, id)
  {
    if Seen(a.events, id) {
      var i :| 0 <= i < |a.events| && a.events[i].event.eventId == id;
      assert b.events[i].event.eventId == id;
    }
    if Seen(b.events, id) {
      var i :| 0 <= i < |b.events| && b.events[i].event.eventId == id;
      assert a.events[i].event.eventId == id;
    }
  }

  lemma ProcessPaymentAlike(a: Db, b: Db, t: Time, u: Time, e: Event)
    requires Alike(a, b)
    ensures Alike(ProcessPayment(a, t, e), ProcessPayment(b, u, e))
  {
    SeenAlike(a, b, e.eventId);
    StoreAlike(a, b, e, t, u);
    if !Seen(a.events, e.eventId) && e.orderId in a.orders {
      ApplyPaymentAlike(Store(a, EventRow(e, t, None)), Store(b, EventRow(e, u, None)), t, u, e.orderId, e);
    }
  }

  // ----- payments of different events commute -----

  lemma AppliedStore(db: Db, t: Time, o: OrderId, e: Event, r: EventRow)
    requires o in db.orders
    ensures Applied(Store(db, r), t, o, e) == Store(Applied(db, t, o, e), r)
    ensures Applied(db, t, o, e).events == db.events
  {
  }

  lemma ApplyPaymentStore(db: Db, t: Time, o: OrderId, e: Event, r: EventRow)
    requires o in db.orders && e.eventId != r.event.eventId
    ensures ApplyPayment(Store(db, r), t, o, e) == Store(ApplyPayment(db, t, o, e), r)
  {
    AppliedStore(db, t, o, e, r);
    assert MarkProcessed(db.events + [r], e.eventId, t) == MarkProcessed(db.events, e.eventId, t) + [r];
  }

  lemma {:induction false} ApplyAllStore(db: Db, t: Time, o: OrderId, es: seq<Event>, r: EventRow)
    requires o in db.orders
    requires forall i :: 0 <= i < |es| ==> es[i].eventId != r.event.eventId
    ensures ApplyAll(Store(db, r), t, o, es) == Store(ApplyAll(db, t, o, es), r)
  {
    if es != [] {
      var front := es[..|es| - 1];
      ApplyAllStore(db, t, o, front, r);
      ApplyPaymentStore(ApplyAll(db, t, o, front), t, o, es[|es| - 1], r);
    }
  }

  lemma UpsertCommutes(a: map<OrderId, Attempt>, t: Time, u: Time, o: OrderId, x: OrderId)
    requires o != x
    ensures UpsertAttempt(UpsertAttempt(a, t, o), u, x) == UpsertAttempt(UpsertAttempt(a, u, x), t, o)
  {
  }

  lemma InsertCommutes(l: seq<LedgerEntry>, d: LedgerEntry, e: LedgerEntry)
    requires d.orderId != e.orderId
    ensures multiset(InsertEntry(InsertEntry(l, d), e)) == multiset(InsertEntry(InsertEntry(l, e), d))
  {
    CountInsert(l, d, e.orderId, e.kind);
    CountInsert(l, e, d.orderId, d.kind);
  }

  /** Applications to two orders commute, but for the order of the ledger entries. */
  ghost predicate SameButLedger(a: Db, b: Db) {
    a == b.(ledger := a.ledger) && multiset(a.ledger) == multiset(b.ledger)
  }

  lemma AppliedElsewhere(db: Db, t: Time, o: OrderId, e: Event, x: OrderId)
    requires o in db.orders && x != o
    ensures x in db.orders <==> x in Applied(db, t, o, e).orders
    ensures x in db.orders ==> Applied(db, t, o, e).orders[x] == db.orders[x]
  {
  }

  lemma PayOrderCommutes(orders: map<OrderId, Order>, t: Time, u: Time, o: OrderId, x: OrderId)
    requires o in orders && x in orders && o != x
    ensures PayOrder(PayOrder(orders, t, o), u, x) == PayOrder(PayOrder(orders, u, x), t, o)
    ensures PayOrder(orders, t, o)[x] == orders[x]
  {
  }

  lemma PaidCommutes(db: Db, t: Time, u: Time, o: OrderId, x: OrderId)
    requires o in db.orders && x in db.orders && o != x
    ensures SameButLedger(ApplyPaid(ApplyPaid(db, t, o), u, x), ApplyPaid(ApplyPaid(db, u, x), t, o))
  {
    PayOrderCommutes(db.orders, t, u, o, x);
    PayOrderCommutes(db.orders, u, t, x, o);
    if db.orders[o].status.IsFinal() {
      assert ApplyPaid(db, t, o) == db;
    } else if db.orders[x].status.IsFinal() {
      assert ApplyPaid(db, u, x) == db;
    } else {
      PaidPaidCommutes(db, t, u, o, x);
    }
  }

  lemma PaidPaidCommutes(db: Db, t: Time, u: Time, o: OrderId, x: OrderId)
    requires o in db.orders && x in db.orders && o != x
    requires !db.orders[o].status.IsFinal() && !db.orders[x].status.IsFinal()
    ensures SameButLedger(ApplyPaid(ApplyPaid(db, t, o), u, x), ApplyPaid(ApplyPaid(db, u, x), t, o))
  {
    var d := LedgerEntry(o, EntryPayment, db.orders[o].amount, db.orders[o].currency);
    var e := LedgerEntry(x, EntryPayment, db.orders[x].amount, db.orders[x].currency);
    var a, b := ApplyPaid(db, t, o), ApplyPaid(db, u, x);
    PayOrderCommutes(db.orders, t, u, o, x);
    PayOrderCommutes(db.orders, u, t, x, o);
    UpsertCommutes(db.attempts, t, u, o, x);
    InsertCommutes(db.ledger, d, e);
    assert a.orders[x] == db.orders[x] && b.orders[o] == db.orders[o];
    assert ApplyPaid(a, u, x).ledger == InsertEntry(InsertEntry(db.ledger, d), e);
    assert ApplyPaid(b, t, o).ledger == InsertEntry(InsertEntry(db.ledger, e), d);
  }

  lemma PaidFailedCommutes(db: Db, t: Time, o: OrderId, x: OrderId)
    requires o in db.orders && x in db.orders && o != x
    ensures ApplyFailed(ApplyPaid(db, t, o), x) == ApplyPaid(ApplyFailed(db, x), t, o)
  {
    if !db.orders[x].status.OrderCreated? {
      assert ApplyFailed(db, x) == db;
    } else if db.orders[o].status.IsFinal() {
      assert ApplyPaid(db, t, o) == db;
    } else {
      var failed := db.orders[x].(status := OrderPaymentFailed);
      assert PayOrder(db.orders, t, o)[x := failed] == PayOrder(db.orders[x := failed], t, o);
    }
  }

  lemma FailedCommutes(db: Db, o: OrderId, x: OrderId)
    requires o in db.orders && x in db.orders && o != x
    ensures ApplyFailed(ApplyFailed(db, o), x) == ApplyFailed(ApplyFailed(db, x), o)
  {
  }

  lemma AppliedCommutes(db: Db, t: Time, u: Time, o: OrderId, x: OrderId, d: Event, e: Event)
    requires o in db.orders && x in db.orders && o != x
    ensures o in Applied(db, u, x, e).orders && x in Applied(db, t, o, d).orders
    ensures SameButLedger(Applied(Applied(db, t, o, d), u, x, e), Applied(Applied(db, u, x, e), t, o, d))
  {
    AppliedElsewhere(db, t, o, d, x);
    AppliedElsewhere(db, u, x, e, o);
    if !Matches(d, db.orders[o].amount, db.orders[o].currency) {
      assert Applied(db, t, o, d) == db;
    } else if !Matches(e, db.orders[x].amount, db.orders[x].currency) {
      assert Applied(db, u, x, e) == db;
    } else if d.status.EventPaid? {
      if e.status.EventPaid? {
        PaidCommutes(db, t, u, o, x);
      } else {
        PaidFailedCommutes(db, t, o, x);
      }
    } else {
      if e.status.EventPaid? {
        PaidFailedCommutes(db, u, x, o);
      } else {
        FailedCommutes(db, o, x);
      }
    }
  }

  lemma SameButLedgerAlike(a: Db, b: Db)
    requires SameButLedger(a, b)
    ensures Alike(a, b)
  {
  }

  lemma AppliedEvents(db: Db, t: Time, o: OrderId, e: Event, events: seq<EventRow>)
    requires o in db.orders
    ensures Applied(db.(events := events), t, o, e) == Applied(db, t, o, e).(events := events)
    ensures Applied(db, t, o, e).events == db.events
  {
  }

  lemma MarkCommutes(events: seq<EventRow>, a: string, b: string, t: Time, u: Time)
    requires a != b
    ensures MarkProcessed(MarkProcessed(events, a, t), b, u) == MarkProcessed(MarkProcessed(events, b, u), a, t)
  {
  }

  lemma ApplyPaymentCommutes(db: Db, t: Time, u: Time, o: OrderId, x: OrderId, d: Event, e: Event)
    requires o in db.orders && x in db.orders && o != x && d.eventId != e.eventId
    ensures x in ApplyPayment(db, t, o, d).orders && o in ApplyPayment(db, u, x, e).orders
    ensures Alike(ApplyPayment(ApplyPayment(db, t, o, d), u, x, e), ApplyPayment(ApplyPayment(db, u, x, e), t, o, d))
  {
    AppliedElsewhere(db, t, o, d, x);
    AppliedElsewhere(db, u, x, e, o);
    AppliedCommutes(db, t, u, o, x, d, e);
    MarkCommutes(db.events, d.eventId, e.eventId, t, u);
    AppliedEvents(db, t, o, d, db.events);
    AppliedEvents(db, u, x, e, db.events);
    var a, b := Applied(db, t, o, d), Applied(db, u, x, e);
    AppliedEvents(a, u, x, e, MarkProcessed(db.events, d.eventId, t));
    AppliedEvents(b, t, o, d, MarkProcessed(db.events, e.eventId, u));
    SameButLedgerAlike(ApplyPayment(ApplyPayment(db, t, o, d), u, x, e),
                       ApplyPayment(ApplyPayment(db, u, x, e), t, o, d));
  }

  lemma {:induction false} ApplyAllKeys(db: Db, t: Time, o: OrderId, es: seq<Event>)
    requires o in db.orders
    ensures ApplyAll(db, t, o, es).orders.Keys == db.orders.Keys
  {
    if es != [] {
      ApplyAllKeys(db, t, o, es[..|es| - 1]);
      Outcome.ApplyDecides(ApplyAll(db, t, o, es[..|es| - 1]), t, o, es[|es| - 1]);
    }
  }

  lemma {:induction false} ApplyAllCommutes(db: Db, t: Time, u: Time, o: OrderId, x: OrderId, es: seq<Event>, e: Event)
    requires o in db.orders && x in db.orders && o != x
    requires forall i :: 0 <= i < |es| ==> es[i].eventId != e.eventId
    ensures x in ApplyAll(db, t, o, es).orders && o in ApplyPayment(db, u, x, e).orders
    ensures Alike(ApplyPayment(ApplyAll(db, t, o, es), u, x, e), ApplyAll(ApplyPayment(db, u, x, e), t, o, es))
  {
    ApplyAllKeys(db, t, o, es);
    Outcome.ApplyDecides(db, u, x, e);
    if es != [] {
      var front, d := es[..|es| - 1], es[|es| - 1];
      var mid := ApplyAll(db, t, o, front);
      ApplyAllKeys(db, t, o, front);
      ApplyAllCommutes(db, t, u, o, x, front, e);
      ApplyPaymentCommutes(mid, t, u, o, x, d, e);
      var moved := ApplyAll(ApplyPayment(db, u, x, e), t, o, front);
      ApplyPaymentAlike(ApplyPayment(mid, u, x, e), moved, t, t, o, d);
      AlikeTransitive(ApplyPayment(ApplyAll(db, t, o, es), u, x, e),
                      ApplyPayment(ApplyPayment(mid, u, x, e), t, o, d),
                      ApplyPayment(moved, t, o, d));
    }
  }

  // ----- creating the order commutes with one webhook -----

  lemma InsertOrderAlike(a: Db, b: Db, t: Time, u: Time, o: OrderId, sku: string)
    requires Alike(a, b) && sku in a.products
    ensures Alike(InsertOrder(a, t, o, sku), InsertOrder(b, u, o, sku))
  {
  }

  lemma PaidInsertCommutes(db: Db, t: Time, u: Time, o: OrderId, sku: string, x: OrderId)
    requires sku in db.products && x in db.orders && o !in db.orders
    ensures ApplyPaid(db, u, x).products == db.products
    ensures ApplyPaid(InsertOrder(db, t, o, sku), u, x) == InsertOrder(ApplyPaid(db, u, x), t, o, sku)
  {
    assert x != o;
    assert PayOrder(InsertOrder(db, t, o, sku).orders, u, x) ==
           PayOrder(db.orders, u, x)[o := InsertOrder(db, t, o, sku).orders[o]];
  }

  lemma AppliedInsertCommutes(db: Db, t: Time, u: Time, o: OrderId, sku: string, x: OrderId, e: Event)
    requires sku in db.products && x in db.orders && o !in db.orders
    ensures Applied(db, u, x, e).products == db.products
    ensures Applied(InsertOrder(db, t, o, sku), u, x, e) == InsertOrder(Applied(db, u, x, e), t, o, sku)
  {
    assert x != o;
    if Matches(e, db.orders[x].amount, db.orders[x].currency) {
      if e.status.EventPaid? {
        PaidInsertCommutes(db, t, u, o, sku, x);
      } else {
        assert ApplyFailed(InsertOrder(db, t, o, sku), x).orders == InsertOrder(ApplyFailed(db, x), t, o, sku).orders;
      }
    }
  }

  lemma InsertOrderCommutes(db: Db, t: Time, u: Time, o: OrderId, sku: string, x: OrderId, e: Event)
    requires sku in db.products && x in db.orders && o !in db.orders
    ensures ApplyPayment(db, u, x, e).products == db.products
    ensures ApplyPayment(InsertOrder(db, t, o, sku), u, x, e) == InsertOrder(ApplyPayment(db, u, x, e), t, o, sku)
  {
    AppliedInsertCommutes(db, t, u, o, sku, x, e);
    AppliedEvents(db, u, x, e, db.events);
  }

  predicate Creatable(db: Db, o: OrderId, sku: string) {
    sku in db.products && db.products[sku].active && o !in db.orders
  }

  lemma PendingFresh(db: Db, now: Time, o: OrderId, e: Event)
    requires Outcome.EventsOk(db, now) && !Seen(db.events, e.eventId)
    ensures forall i :: 0 <= i < |Pending(db.events, o)| ==> Pending(db.events, o)[i].eventId != e.eventId
  {
    PendingIsOrdered(db.events, o);
    SortKeepsArrivalOrder(PendingRows(db.events, o));
    forall i | 0 <= i < |Pending(db.events, o)|
      ensures Pending(db.events, o)[i].eventId != e.eventId
    {
      var r := PendingRows(db.events, o)[i];
      assert r in db.events;
      var j :| 0 <= j < |db.events| && db.events[j] == r;
    }
  }

  lemma PendingAfterStore(db: Db, now: Time, t: Time, o: OrderId, e: Event)
    requires Outcome.EventsOk(db, now) && now < t
    ensures Pending(db.events + [EventRow(e, t, None)], o) ==
            Pending(db.events, o) + if e.orderId == o then [e] else []
  {
    PendingAppend(db.events, EventRow(e, t, None), o);
  }

  /** Creating an order after its event has arrived applies that event last. */
  lemma CreateAfterOwn(db: Db, now: Time, t1: Time, t2: Time, e: Event, o: OrderId, sku: string)
    requires Outcome.EventsOk(db, now) && now < t1 && Creatable(db, o, sku)
    requires e.orderId == o && !Seen(db.events, e.eventId)
    ensures var r := EventRow(e, t1, None);
      Create(Store(db, r), t2, o, sku).0 ==
      ApplyPayment(Store(ApplyAll(InsertOrder(db, t2, o, sku), t2, o, Pending(db.events, o)), r), t2, o, e)
  {
    var r := EventRow(e, t1, None);
    var es := Pending(db.events, o);
    var base := InsertOrder(db, t2, o, sku);
    PendingAfterStore(db, now, t1, o, e);
    PendingFresh(db, now, o, e);
    assert InsertOrder(Store(db, r), t2, o, sku) == Store(base, r);
    ApplyAllStore(base, t2, o, es, r);
    ApplyAllLast(Store(base, r), t2, o, es, e);
  }

  lemma ApplyAllLast(db: Db, t: Time, o: OrderId, es: seq<Event>, e: Event)
    requires o in db.orders
    ensures ApplyAll(db, t, o, es + [e]) == ApplyPayment(ApplyAll(db, t, o, es), t, o, e)
  {
    assert (es + [e])[..|es|] == es;
  }

  /** The new event is for the order to be created. */
  lemma SwapOwn(db: Db, now: Time, t1: Time, t2: Time, s1: Time, s2: Time, e: Event, o: OrderId, sku: string)
    requires Outcome.EventsOk(db, now) && now < t1 && Creatable(db, o, sku)
    requires e.orderId == o && !Seen(db.events, e.eventId)
    ensures Alike(Create(Store(db, EventRow(e, t1, None)), t2, o, sku).0,
                  ApplyPayment(Store(Create(db, s1, o, sku).0, EventRow(e, s2, None)), s2, o, e))
  {
    CreateAfterOwn(db, now, t1, t2, e, o, sku);
    var es := Pending(db.events, o);
    var base1, base2 := InsertOrder(db, t2, o, sku), InsertOrder(db, s1, o, sku);
    InsertOrderAlike(db, db, t2, s1, o, sku);
    ApplyAllAlike(base1, base2, t2, s1, o, es);
    var all1, all2 := ApplyAll(base1, t2, o, es), ApplyAll(base2, s1, o, es);
    StoreAlike(all1, all2, e, t1, s2);
    ApplyPaymentAlike(Store(all1, EventRow(e, t1, None)), Store(all2, EventRow(e, s2, None)), t2, s2, o, e);
  }

  /** The new event is for another order, which does not exist either. */
  lemma SwapAbsent(db: Db, now: Time, t1: Time, t2: Time, s1: Time, s2: Time, e: Event, o: OrderId, sku: string)
    requires Outcome.EventsOk(db, now) && now < t1 && Creatable(db, o, sku)
    requires e.orderId != o && !Seen(db.events, e.eventId)
    ensures Alike(Create(Store(db, EventRow(e, t1, None)), t2, o, sku).0,
                  Store(Create(db, s1, o, sku).0, EventRow(e, s2, None)))
  {
    var r1, r2 := EventRow(e, t1, None), EventRow(e, s2, None);
    var es := Pending(db.events, o);
    PendingAfterStore(db, now, t1, o, e);
    PendingFresh(db, now, o, e);
    var base1, base2 := InsertOrder(db, t2, o, sku), InsertOrder(db, s1, o, sku);
    assert InsertOrder(Store(db, r1), t2, o, sku) == Store(base1, r1);
    ApplyAllStore(base1, t2, o, es, r1);
    assert es + [] == es;
    InsertOrderAlike(db, db, t2, s1, o, sku);
    ApplyAllAlike(base1, base2, t2, s1, o, es);
    StoreAlike(ApplyAll(base1, t2, o, es), ApplyAll(base2, s1, o, es), e, t1, s2);
  }

  /** Marking a row that is new does not disturb the pending events of another order. */
  lemma PendingAfterMark(db: Db, now: Time, t: Time, o: OrderId, e: Event)
    requires Outcome.EventsOk(db, now) && now < t && !Seen(db.events, e.eventId) && e.orderId != o
    ensures Pending(MarkProcessed(db.events + [EventRow(e, t, None)], e.eventId, t), o) == Pending(db.events, o)
  {
    var marked := EventRow(e, t, Some(t));
    assert MarkProcessed(db.events + [EventRow(e, t, None)], e.eventId, t) == db.events + [marked] by {
      assert forall i :: 0 <= i < |db.events| ==> db.events[i].event.eventId != e.eventId;
    }
    PendingAppend(db.events, marked, o);
    assert Pending(db.events, o) + [] == Pending(db.events, o);
  }

  /** Creating an order after another order has been paid: the payment may as well come last. */
  lemma CreateAfterOther(db: Db, now: Time, t1: Time, t2: Time, e: Event, o: OrderId, sku: string)
    requires Outcome.EventsOk(db, now) && now < t1 && Creatable(db, o, sku)
    requires e.orderId != o && e.orderId in db.orders && !Seen(db.events, e.eventId)
    ensures var r := EventRow(e, t1, None);
      var all := ApplyAll(InsertOrder(db, t2, o, sku), t2, o, Pending(db.events, o));
      && e.orderId in all.orders
      && Alike(Create(ApplyPayment(Store(db, r), t1, e.orderId, e), t2, o, sku).0,
               ApplyPayment(Store(all, r), t1, e.orderId, e))
  {
    var r, x := EventRow(e, t1, None), e.orderId;
    var es := Pending(db.events, o);
    var base := InsertOrder(db, t2, o, sku);
    var paid := ApplyPayment(Store(db, r), t1, x, e);
    AppliedEvents(Store(db, r), t1, x, e, Store(db, r).events);
    PendingAfterMark(db, now, t1, o, e);
    PendingFresh(db, now, o, e);
    InsertOrderCommutes(Store(db, r), t2, t1, o, sku, x, e);
    assert InsertOrder(Store(db, r), t2, o, sku) == Store(base, r);
    Outcome.ApplyDecides(Store(db, r), t1, x, e);
    assert Create(paid, t2, o, sku).0 == ApplyAll(InsertOrder(paid, t2, o, sku), t2, o, es);
    ApplyAllCommutes(Store(base, r), t2, t1, o, x, es, e);
    ApplyAllStore(base, t2, o, es, r);
    ApplyAllKeys(base, t2, o, es);
    AlikeSymmetric(ApplyPayment(ApplyAll(Store(base, r), t2, o, es), t1, x, e),
                   ApplyAll(ApplyPayment(Store(base, r), t1, x, e), t2, o, es));
  }

  /** The new event is for another order, which exists. */
  lemma SwapPresent(db: Db, now: Time, t1: Time, t2: Time, s1: Time, s2: Time, e: Event, o: OrderId, sku: string)
    requires Outcome.EventsOk(db, now) && now < t1 && Creatable(db, o, sku)
    requires e.orderId != o && e.orderId in db.orders && !Seen(db.events, e.eventId)
    ensures e.orderId in Create(db, s1, o, sku).0.orders
    ensures Alike(Create(ApplyPayment(Store(db, EventRow(e, t1, None)), t1, e.orderId, e), t2, o, sku).0,
                  ApplyPayment(Store(Create(db, s1, o, sku).0, EventRow(e, s2, None)), s2, e.orderId, e))
  {
    var x := e.orderId;
    var es := Pending(db.events, o);
    CreateAfterOther(db, now, t1, t2, e, o, sku);
    var base1, base2 := InsertOrder(db, t2, o, sku), InsertOrder(db, s1, o, sku);
    InsertOrderAlike(db, db, t2, s1, o, sku);
    ApplyAllAlike(base1, base2, t2, s1, o, es);
    var all1, all2 := ApplyAll(base1, t2, o, es), ApplyAll(base2, s1, o, es);
    StoreAlike(all1, all2, e, t1, s2);
    var r1, r2 := EventRow(e, t1, None), EventRow(e, s2, None);
    ApplyPaymentAlike(Store(all1, r1), Store(all2, r2), t1, s2, x, e);
    AlikeTransitive(Create(ApplyPayment(Store(db, r1), t1, x, e), t2, o, sku).0,
                    ApplyPayment(Store(all1, r1), t1, x, e), ApplyPayment(Store(all2, r2), s2, x, e));
  }

  lemma {:induction false} ApplyAllEvents(db: Db, t: Time, o: OrderId, es: seq<Event>)
    requires o in db.orders
    ensures |ApplyAll(db, t, o, es).events| == |db.events|
    ensures forall i :: 0 <= i < |db.events| ==> ApplyAll(db, t, o, es).events[i].event == db.events[i].event
    ensures ApplyAll(db, t, o, es).products == db.products
  {
    if es != [] {
      ApplyAllEvents(db, t, o, es[..|es| - 1]);
      Outcome.ApplyDecides(ApplyAll(db, t, o, es[..|es| - 1]), t, o, es[|es| - 1]);
    }
  }

  lemma CreateKeepsIds(db: Db, t: Time, o: OrderId, sku: string, id: string)
    ensures Seen(Create(db, t, o, sku).0.events, id) <==> Seen(db.events, id)
  {
    if Creatable(db, o, sku) {
      ApplyAllEvents(InsertOrder(db, t, o, sku), t, o, Pending(db.events, o));
    }
  }

  lemma ProcessKeepsCreatable(db: Db, t: Time, e: Event, o: OrderId, sku: string)
    ensures Creatable(ProcessPayment(db, t, e), o, sku) <==> Creatable(db, o, sku)
  {
    if !Seen(db.events, e.eventId) && e.orderId in db.orders {
      Outcome.ApplyDecides(Store(db, EventRow(e, t, None)), t, e.orderId, e);
    }
  }

  lemma CreateAlike(a: Db, b: Db, t: Time, u: Time, o: OrderId, sku: string)
    requires Alike(a, b) && Pending(a.events, o) == Pending(b.events, o)
    ensures Alike(Create(a, t, o, sku).0, Create(b, u, o, sku).0)
  {
    if Creatable(a, o, sku) {
      InsertOrderAlike(a, b, t, u, o, sku);
      ApplyAllAlike(InsertOrder(a, t, o, sku), InsertOrder(b, u, o, sku), t, u, o, Pending(a.events, o));
    }
  }

  /** A webhook followed by the creation of an order is a creation followed by the webhook. */
  lemma Swap(db: Db, now: Time, t1: Time, t2: Time, s1: Time, s2: Time, e: Event, o: OrderId, sku: string)
    requires Outcome.EventsOk(db, now) && now < t1
    ensures Alike(Create(ProcessPayment(db, t1, e), t2, o, sku).0, ProcessPayment(Create(db, s1, o, sku).0, s2, e))
  {
    CreateKeepsIds(db, s1, o, sku, e.eventId);
    ProcessKeepsCreatable(db, t1, e, o, sku);
    if !Creatable(db, o, sku) {
      ProcessPaymentAlike(db, db, t1, s2, e);
    } else if Seen(db.events, e.eventId) {
      CreateAlike(db, db, t2, s1, o, sku);
    } else {
      ApplyAllKeys(InsertOrder(db, s1, o, sku), s1, o, Pending(db.events, o));
      if e.orderId == o {
        SwapOwn(db, now, t1, t2, s1, s2, e, o, sku);
      } else if e.orderId in db.orders {
        SwapPresent(db, now, t1, t2, s1, s2, e, o, sku);
      } else {
        SwapAbsent(db, now, t1, t2, s1, s2, e, o, sku);
      }
    }
  }

  // ----- any number of webhooks, any position -----

  function Webhooks(es: seq<Event>): (acts: seq<Action>)
    ensures |acts| == |es|
  {
    if es == [] then [] else [Shop(Webhook(es[0]))] + Webhooks(es[1..])
  }

  lemma {:induction false} WebhooksAlike(cfg: Config, a: World, b: World, es: seq<Event>)
    requires Alike(a.db, b.db)
    ensures Alike(Run(cfg, a, Webhooks(es)).db, Run(cfg, b, Webhooks(es)).db)
    decreases es
  {
    if es != [] {
      var hook := Shop(Webhook(es[0]));
      ProcessPaymentAlike(a.db, b.db, a.now + 1, b.now + 1, es[0]);
      assert Webhooks(es)[1..] == Webhooks(es[1..]);
      WebhooksAlike(cfg, Next(cfg, a, hook), Next(cfg, b, hook), es[1..]);
    }
  }

  lemma AlikeReflexive(a: Db)
    ensures Alike(a, a)
  {
  }

  lemma BothOrders(cfg: Config, w: World, e: Event, o: OrderId, sku: string)
    requires Safe(cfg, w)
    ensures Alike(Next(cfg, Next(cfg, w, Shop(Webhook(e))), Shop(CreateOrder(o, sku))).db,
                  Next(cfg, Next(cfg, w, Shop(CreateOrder(o, sku))), Shop(Webhook(e))).db)
  {
    var create, hook := CreateOrder(o, sku), Webhook(e);
    NextShop(cfg, w, hook);
    NextShop(cfg, w, create);
    NextShop(cfg, Next(cfg, w, Shop(hook)), create);
    NextShop(cfg, Next(cfg, w, Shop(create)), hook);
    Swap(w.db, w.now, w.now + 1, w.now + 2, w.now + 1, w.now + 2, e, o, sku);
  }

  /** One webhook and the creation change places in front of any other webhooks. */
  lemma SwapInFront(cfg: Config, w: World, e: Event, rest: seq<Event>, o: OrderId, sku: string)
    requires Safe(cfg, w)
    ensures Alike(Run(cfg, Next(cfg, w, Shop(Webhook(e))), [Shop(CreateOrder(o, sku))] + Webhooks(rest)).db,
                  Run(cfg, w, [Shop(CreateOrder(o, sku))] + ([Shop(Webhook(e))] + Webhooks(rest))).db)
  {
    var create, hook := Shop(CreateOrder(o, sku)), Shop(Webhook(e));
    var w1, w2 := Next(cfg, w, hook), Next(cfg, w, create);
    RunCons(cfg, w1, create, Webhooks(rest));
    RunCons(cfg, w, create, [hook] + Webhooks(rest));
    RunCons(cfg, w2, hook, Webhooks(rest));
    BothOrders(cfg, w, e, o, sku);
    WebhooksAlike(cfg, Next(cfg, w1, create), Next(cfg, w2, hook), rest);
  }

  /** A run of webhooks with the creation of the order at position i. */
  function CreateAt(es: seq<Event>, i: nat, o: OrderId, sku: string): seq<Action>
    requires i <= |es|
  {
    Webhooks(es[..i]) + [Shop(CreateOrder(o, sku))] + Webhooks(es[i..])
  }

  lemma CreateAtCons(es: seq<Event>, i: nat, o: OrderId, sku: string)
    requires 0 < i <= |es|
    ensures CreateAt(es, i, o, sku) == [Shop(Webhook(es[0]))] + CreateAt(es[1..], i - 1, o, sku)
  {
    assert es[..i][1..] == es[1..][..i - 1] && es[i..] == es[1..][i - 1..];
  }

  lemma CreateAtFront(es: seq<Event>, o: OrderId, sku: string)
    ensures CreateAt(es, 0, o, sku) == [Shop(CreateOrder(o, sku))] + Webhooks(es)
  {
    assert es[..0] == [] && es[0..] == es;
  }

  /** Moving the creation from position i to the front changes nothing but timestamps. */
  lemma {:induction false} CreationComesFirst(cfg: Config, w: World, es: seq<Event>, i: nat, o: OrderId, sku: string)
    requires Safe(cfg, w) && i <= |es|
    ensures Alike(Run(cfg, w, CreateAt(es, i, o, sku)).db, Run(cfg, w, CreateAt(es, 0, o, sku)).db)
    decreases i
  {
    CreateAtFront(es, o, sku);
    if i == 0 {
      AlikeReflexive(Run(cfg, w, CreateAt(es, 0, o, sku)).db);
    } else {
      var hook := Shop(Webhook(es[0]));
      var w1 := Next(cfg, w, hook);
      CreateAtCons(es, i, o, sku);
      RunCons(cfg, w, hook, CreateAt(es[1..], i - 1, o, sku));
      assert Safe(cfg, w1) by { NextSafe(cfg, w, hook); }
      CreationComesFirst(cfg, w1, es[1..], i - 1, o, sku);
      CreateAtFront(es[1..], o, sku);
      SwapInFront(cfg, w, es[0], es[1..], o, sku);
      AlikeTransitive(Run(cfg, w, CreateAt(es, i, o, sku)).db, Run(cfg, w1, CreateAt(es[1..], 0, o, sku)).db,
                      Run(cfg, w, CreateAt(es, 0, o, sku)).db);
    }
  }

  /**
   * For any sequence of payment events, from any reachable state, every position at which the order
   * is created gives the same orders, jobs, ledger and processed flags, up to timestamps.
   */
  lemma PositionDoesNotMatter(cfg: Config, w: World, es: seq<Event>, i: nat, j: nat, o: OrderId, sku: string)
    requires Reachable(cfg, w) && i <= |es| && j <= |es|
    ensures Alike(Run(cfg, w, CreateAt(es, i, o, sku)).db, Run(cfg, w, CreateAt(es, j, o, sku)).db)
  {
    ReachableSafe(cfg, w);
    CreationComesFirst(cfg, w, es, i, o, sku);
    CreationComesFirst(cfg, w, es, j, o, sku);
    var first := Run(cfg, w, CreateAt(es, 0, o, sku)).db;
    AlikeSymmetric(Run(cfg, w, CreateAt(es, j, o, sku)).db, first);
    AlikeTransitive(Run(cfg, w, CreateAt(es, i, o, sku)).db, first, Run(cfg, w, CreateAt(es, j, o, sku)).db);
  }
}
