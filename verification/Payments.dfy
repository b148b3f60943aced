/** Order creation and payment webhooks: what one committed transaction does to the tables. */
module Payments {
  import opened Prelude
  import opened Model

  datatype CreateResult = Created(order: Order) | ProductNotFound | DuplicateOrder

  predicate Seen(events: seq<EventRow>, id: string) {
    exists i :: 0 <= i < |events| && events[i].event.eventId == id
  }

  predicate Matches(e: Event, amount: nat, currency: string) {
    e.amount == amount && e.currency == currency
  }

  function MarkProcessed(events: seq<EventRow>, id: string, now: Time): (r: seq<EventRow>)
    ensures |r| == |events|
  {
    seq(|events|, i requires 0 <= i < |events| =>
      if events[i].event.eventId == id then events[i].(processedAt := Some(now)) else events[i])
  }

  /** `INSERT INTO delivery_attempts ... ON CONFLICT (order_id) DO UPDATE`. */
  function UpsertAttempt(attempts: map<OrderId, Attempt>, now: Time, o: OrderId): map<OrderId, Attempt> {
    if o !in attempts then attempts[o := NewAttempt(o, now)]
    else if attempts[o].status.IsRecoverable() then
      attempts[o := attempts[o].(status := JobPending, nextAt := Some(now))]
    else attempts
  }

  function MarkPaid(ord: Order, now: Time): Order {
    ord.(status := OrderPaid, paidAt := if ord.paidAt.Some? then ord.paidAt else Some(now))
  }

  function PayOrder(orders: map<OrderId, Order>, now: Time, o: OrderId): (r: map<OrderId, Order>)
    requires o in orders
    ensures r.Keys == orders.Keys
  {
    if orders[o].status.OrderCreated? || orders[o].status.IsRecoverable()
    then orders[o := MarkPaid(orders[o], now)] else orders
  }

  function ApplyPaid(db: Db, now: Time, o: OrderId): Db
    requires o in db.orders
  {
    var ord := db.orders[o];
    if ord.status.IsFinal() then db
    else db.(
      orders := PayOrder(db.orders, now, o),
      attempts := UpsertAttempt(db.attempts, now, o),
      ledger := InsertEntry(db.ledger, LedgerEntry(o, EntryPayment, ord.amount, ord.currency)))
  }

  function ApplyFailed(db: Db, o: OrderId): Db
    requires o in db.orders
  {
    if db.orders[o].status.OrderCreated?
    then db.(orders := db.orders[o := db.orders[o].(status := OrderPaymentFailed)])
    else db
  }

  /** What an event does to its order: nothing, unless amount and currency are the order's. */
  function Applied(db: Db, now: Time, o: OrderId, e: Event): Db
    requires o in db.orders
  {
    if !Matches(e, db.orders[o].amount, db.orders[o].currency) then db
    else match e.status
      case EventPaid => ApplyPaid(db, now, o)
      case EventFailed => ApplyFailed(db, o)
  }

  /** One event applied to its order; whatever the outcome, the event ends up processed. */
  function ApplyPayment(db: Db, now: Time, o: OrderId, e: Event): (r: Db)
    requires o in db.orders
    ensures o in r.orders
  {
    var r := Applied(db, now, o, e);
    r.(events := MarkProcessed(r.events, e.eventId, now))
  }

  function ApplyAll(db: Db, now: Time, o: OrderId, es: seq<Event>): (r: Db)
    requires o in db.orders
    ensures o in r.orders
  {
    if es == [] then db
    else ApplyPayment(ApplyAll(db, now, o, es[..|es| - 1]), now, o, es[|es| - 1])
  }

  function ProcessPayment(db: Db, now: Time, e: Event): Db {
    if Seen(db.events, e.eventId) then db
    else
      var stored := db.(events := db.events + [EventRow(e, now, None)]);
      if e.orderId !in db.orders then stored else ApplyPayment(stored, now, e.orderId, e)
  }

  // ----- the pending events of an order, in the order of the query -----

  predicate NotAfter(a: EventRow, b: EventRow) {
    a.receivedAt < b.receivedAt ||
    (a.receivedAt == b.receivedAt && !Less(b.event.eventId, a.event.eventId))
  }

  function InsertRow(rows: seq<EventRow>, r: EventRow): seq<EventRow> {
    if rows == [] || NotAfter(rows[|rows| - 1], r) then rows + [r]
    else InsertRow(rows[..|rows| - 1], r) + [rows[|rows| - 1]]
  }

  /** `ORDER BY received_at ASC, event_id ASC`. */
  function SortRows(rows: seq<EventRow>): seq<EventRow> {
    if rows == [] then []
    else InsertRow(SortRows(rows[..|rows| - 1]), rows[|rows| - 1])
  }

  /** `WHERE order_id = $1 AND processed_at IS NULL`. */
  function PendingRows(events: seq<EventRow>, o: OrderId): seq<EventRow> {
    if events == [] then []
    else
      var r := events[|events| - 1];
      PendingRows(events[..|events| - 1], o) +
      if r.event.orderId == o && r.processedAt.None? then [r] else []
  }

  function Payloads(rows: seq<EventRow>): (es: seq<Event>)
    ensures |es| == |rows|
  {
    seq(|rows|, i requires 0 <= i < |rows| => rows[i].event)
  }

  function Pending(events: seq<EventRow>, o: OrderId): seq<Event> {
    Payloads(SortRows(PendingRows(events, o)))
  }

  function InsertOrder(db: Db, now: Time, o: OrderId, sku: string): Db
    requires sku in db.products
  {
    var p := db.products[sku];
    db.(orders := db.orders[o := Order(sku, p.price, p.currency, OrderCreated, None, None, now)])
  }

  function Create(db: Db, now: Time, o: OrderId, sku: string): (Db, CreateResult) {
    if sku !in db.products || !db.products[sku].active then (db, ProductNotFound)
    else if o in db.orders then (db, DuplicateOrder)
    else
      var done := ApplyAll(InsertOrder(db, now, o, sku), now, o, Pending(db.events, o));
      (done, Created(done.orders[o]))
  }

  // ----- the order of arrival -----

  /** Every event has its own arrival time, and the table lists them in that order. */
  ghost predicate InArrivalOrder(rows: seq<EventRow>) {
    forall i, j :: 0 <= i < j < |rows| ==> rows[i].receivedAt < rows[j].receivedAt
  }

  /** By arrival, and among rows of one arrival by event id. */
  ghost predicate Sorted(rows: seq<EventRow>) {
    forall i, j :: 0 <= i < j < |rows| ==>
      rows[i].receivedAt < rows[j].receivedAt ||
      (rows[i].receivedAt == rows[j].receivedAt && !Less(rows[j].event.eventId, rows[i].event.eventId))
  }

  lemma NotAfterTransitive(a: EventRow, b: EventRow, c: EventRow)
    requires NotAfter(a, b) && NotAfter(b, c)
    ensures NotAfter(a, c)
  {
    if Less(c.event.eventId, a.event.eventId) && c.event.eventId != b.event.eventId {
      LessConnected(b.event.eventId, c.event.eventId);
      if Less(b.event.eventId, c.event.eventId) {
        LessTransitive(b.event.eventId, c.event.eventId, a.event.eventId);
      }
    }
  }

  /** A row that is after none of the sorted rows can be added at their end. */
  lemma AppendSorted(rows: seq<EventRow>, r: EventRow)
    requires Sorted(rows) && (rows != [] ==> NotAfter(rows[|rows| - 1], r))
    ensures Sorted(rows + [r])
  {
    forall i | 0 <= i < |rows|
      ensures NotAfter(rows[i], r)
    {
      if i < |rows| - 1 {
        NotAfterTransitive(rows[i], rows[|rows| - 1], r);
      }
    }
  }

  lemma NotAfterConnected(a: EventRow, b: EventRow)
    requires !NotAfter(a, b)
    ensures NotAfter(b, a)
  {
    if Less(a.event.eventId, b.event.eventId) && Less(b.event.eventId, a.event.eventId) {
      LessTransitive(a.event.eventId, b.event.eventId, a.event.eventId);
      LessIrreflexive(a.event.eventId);
    }
  }

  lemma {:induction false} InsertSorts(rows: seq<EventRow>, r: EventRow)
    requires Sorted(rows)
    ensures Sorted(InsertRow(rows, r)) && multiset(InsertRow(rows, r)) == multiset(rows) + multiset{r}
    ensures |InsertRow(rows, r)| == |rows| + 1
    ensures InsertRow(rows, r)[|rows|] == r || (rows != [] && InsertRow(rows, r)[|rows|] == rows[|rows| - 1])
  {
    if rows == [] || NotAfter(rows[|rows| - 1], r) {
      AppendSorted(rows, r);
    } else {
      var front, last := rows[..|rows| - 1], rows[|rows| - 1];
      assert rows == front + [last];
      InsertSorts(front, r);
      NotAfterConnected(last, r);
      AppendSorted(InsertRow(front, r), last);
    }
  }

  lemma LastRow(rows: seq<EventRow>)
    requires rows != []
    ensures multiset(rows) == multiset(rows[..|rows| - 1]) + multiset{rows[|rows| - 1]}
  {
    assert rows == rows[..|rows| - 1] + [rows[|rows| - 1]];
  }

  /** The query sorts: its rows are in order, and they are the rows it was given. */
  lemma {:induction false} SortSorts(rows: seq<EventRow>)
    ensures Sorted(SortRows(rows)) && multiset(SortRows(rows)) == multiset(rows)
  {
    if rows != [] {
      SortSorts(rows[..|rows| - 1]);
      InsertSorts(SortRows(rows[..|rows| - 1]), rows[|rows| - 1]);
      LastRow(rows);
    }
  }

  lemma LatestComesLast(rows: seq<EventRow>)
    requires InArrivalOrder(rows) && rows != []
    ensures InsertRow(rows[..|rows| - 1], rows[|rows| - 1]) == rows
  {
    assert rows == rows[..|rows| - 1] + [rows[|rows| - 1]];
  }

  /** On distinct arrival times the query returns the order of arrival. */
  lemma {:induction false} SortKeepsArrivalOrder(rows: seq<EventRow>)
    requires InArrivalOrder(rows)
    ensures SortRows(rows) == rows
  {
    if rows != [] {
      SortKeepsArrivalOrder(rows[..|rows| - 1]);
      LatestComesLast(rows);
    }
  }

  lemma {:induction false} PendingIsOrdered(events: seq<EventRow>, o: OrderId)
    requires InArrivalOrder(events)
    ensures InArrivalOrder(PendingRows(events, o))
    ensures forall r :: r in PendingRows(events, o) ==>
              r in events && r.event.orderId == o && r.processedAt.None?
  {
    if events != [] {
      PendingIsOrdered(events[..|events| - 1], o);
    }
  }

  /** A row that has just arrived comes last among the pending events of its order. */
  lemma PendingAppend(events: seq<EventRow>, r: EventRow, o: OrderId)
    requires InArrivalOrder(events + [r])
    ensures Pending(events + [r], o) ==
            Pending(events, o) + if r.event.orderId == o && r.processedAt.None? then [r.event] else []
  {
    assert (events + [r])[..|events|] == events;
    assert InArrivalOrder(events) by {
      assert forall i, j :: 0 <= i < j < |events| ==> (events + [r])[i].receivedAt < (events + [r])[j].receivedAt;
    }
    assert SortRows(PendingRows(events, o)) == PendingRows(events, o) by {
      PendingIsOrdered(events, o);
      SortKeepsArrivalOrder(PendingRows(events, o));
    }
    assert SortRows(PendingRows(events + [r], o)) == PendingRows(events + [r], o) by {
      PendingIsOrdered(events + [r], o);
      SortKeepsArrivalOrder(PendingRows(events + [r], o));
    }
  }

  // ----- which event decides -----

  /** The events of one order, in order of arrival. */
  function EventsOf(events: seq<EventRow>, o: OrderId): seq<Event> {
    if events == [] then []
    else
      var e := events[|events| - 1].event;
      EventsOf(events[..|events| - 1], o) + if e.orderId == o then [e] else []
  }

  /** The status of the first event whose amount and currency are those of the order. */
  function FirstMatch(es: seq<Event>, amount: nat, currency: string): Option<PaymentStatus> {
    if es == [] then None
    else if Matches(es[0], amount, currency) then Some(es[0].status)
    else FirstMatch(es[1..], amount, currency)
  }

  /** What the status of an order says about its payment. */
  function OutcomeOf(s: OrderStatus): Option<PaymentStatus> {
    if s.OrderCreated? then None
    else if s.OrderPaymentFailed? then Some(EventFailed)
    else Some(EventPaid)
  }

  /** The payment side of an order in one line: the first matching event decides. */
  predicate Decided(ord: Order, es: seq<Event>) {
    OutcomeOf(ord.status) == FirstMatch(es, ord.amount, ord.currency)
  }

  lemma {:induction false} FirstMatchAppend(es: seq<Event>, e: Event, amount: nat, currency: string)
    ensures FirstMatch(es + [e], amount, currency) ==
            if FirstMatch(es, amount, currency).Some? then FirstMatch(es, amount, currency)
            else if Matches(e, amount, currency) then Some(e.status) else None
  {
    if es != [] {
      assert (es + [e])[1..] == es[1..] + [e];
      FirstMatchAppend(es[1..], e, amount, currency);
    }
  }

  /** No later event revokes or changes what an earlier one decided. */
  lemma {:induction false} FirstMatchStands(es: seq<Event>, later: seq<Event>, amount: nat, currency: string)
    requires FirstMatch(es, amount, currency).Some?
    ensures FirstMatch(es + later, amount, currency) == FirstMatch(es, amount, currency)
  {
    if later == [] {
      assert es + later == es;
    } else {
      var front := later[..|later| - 1];
      FirstMatchStands(es, front, amount, currency);
      assert es + later == (es + front) + [later[|later| - 1]];
      FirstMatchAppend(es + front, later[|later| - 1], amount, currency);
    }
  }

  lemma {:induction false} EventsOfSame(a: seq<EventRow>, b: seq<EventRow>, o: OrderId)
    requires |a| == |b| && forall i :: 0 <= i < |a| ==> a[i].event == b[i].event
    ensures EventsOf(a, o) == EventsOf(b, o)
  {
    if a != [] {
      EventsOfSame(a[..|a| - 1], b[..|b| - 1], o);
    }
  }

  lemma EventsOfAppend(events: seq<EventRow>, r: EventRow, o: OrderId)
    ensures EventsOf(events + [r], o) ==
            EventsOf(events, o) + if r.event.orderId == o then [r.event] else []
  {
    assert (events + [r])[..|events|] == events;
  }

  /** When every event of an absent order is unprocessed, its pending events are all its events. */
  lemma {:induction false} AllPending(events: seq<EventRow>, o: OrderId)
    requires InArrivalOrder(events)
    requires forall i :: 0 <= i < |events| && events[i].event.orderId == o ==> events[i].processedAt.None?
    ensures Pending(events, o) == EventsOf(events, o)
  {
    if events != [] {
      var front, last := events[..|events| - 1], events[|events| - 1];
      assert events == front + [last];
      AllPending(front, o);
      PendingAppend(front, last, o);
    }
  }
}
