/** Every payment outcome is decided by the first matching event, whenever the order is created. */
module Outcome {
  import opened Prelude
  import opened Model
  import opened Payments

  ghost predicate DistinctIds(events: seq<EventRow>) {
    forall i, j :: 0 <= i < j < |events| ==> events[i].event.eventId != events[j].event.eventId
  }

  /** An event is processed exactly when its order exists. */
  ghost predicate ProcessedOk(db: Db) {
    forall i :: 0 <= i < |db.events| ==>
      (db.events[i].processedAt.Some? <==> db.events[i].event.orderId in db.orders)
  }

  ghost predicate EventsOk(db: Db, now: Time) {
    && InArrivalOrder(db.events)
    && DistinctIds(db.events)
    && (forall i :: 0 <= i < |db.events| ==> db.events[i].receivedAt <= now)
    && ProcessedOk(db)
    && (forall o :: o in db.orders ==> Decided(db.orders[o], EventsOf(db.events, o)))
  }

  /** The rest of the system never touches the payment side of an order. */
  lemma EventsFrame(db: Db, db': Db, now: Time, now': Time)
    requires EventsOk(db, now) && now <= now'
    requires db'.events == db.events && db'.orders.Keys == db.orders.Keys
    requires forall o :: o in db.orders ==>
               && db'.orders[o].amount == db.orders[o].amount
               && db'.orders[o].currency == db.orders[o].currency
               && OutcomeOf(db'.orders[o].status) == OutcomeOf(db.orders[o].status)
    ensures EventsOk(db', now')
  {
    forall o | o in db'.orders
      ensures Decided(db'.orders[o], EventsOf(db'.events, o))
    {
      assert Decided(db.orders[o], EventsOf(db.events, o));
    }
  }

  /** `db'` differs from `db` at most in order `o`, whose price stays and whose outcome is `outcome`. */
  ghost predicate Moves(db: Db, db': Db, o: OrderId, outcome: Option<PaymentStatus>)
    requires o in db.orders
  {
    && db'.orders.Keys == db.orders.Keys
    && (forall x :: x in db.orders && x != o ==> db'.orders[x] == db.orders[x])
    && db'.orders[o].amount == db.orders[o].amount
    && db'.orders[o].currency == db.orders[o].currency
    && OutcomeOf(db'.orders[o].status) == outcome
  }

  lemma PaidMoves(db: Db, now: Time, o: OrderId)
    requires o in db.orders
    ensures Moves(db, ApplyPaid(db, now, o), o,
              if OutcomeOf(db.orders[o].status).None? then Some(EventPaid) else OutcomeOf(db.orders[o].status))
    ensures ApplyPaid(db, now, o).events == db.events
  {
  }

  lemma FailedMoves(db: Db, o: OrderId)
    requires o in db.orders
    ensures Moves(db, ApplyFailed(db, o), o,
              if OutcomeOf(db.orders[o].status).None? then Some(EventFailed) else OutcomeOf(db.orders[o].status))
    ensures ApplyFailed(db, o).events == db.events
  {
  }

  /** Applying an event moves an undecided order, and no other. */
  lemma ApplyDecides(db: Db, now: Time, o: OrderId, e: Event)
    requires o in db.orders
    ensures Moves(db, ApplyPayment(db, now, o, e), o,
              if OutcomeOf(db.orders[o].status).None? && Matches(e, db.orders[o].amount, db.orders[o].currency)
              then Some(e.status) else OutcomeOf(db.orders[o].status))
    ensures ApplyPayment(db, now, o, e).events == MarkProcessed(db.events, e.eventId, now)
  {
    PaidMoves(db, now, o);
    FailedMoves(db, o);
  }

  ghost predicate SameEvents(a: seq<EventRow>, b: seq<EventRow>) {
    |a| == |b| && forall i :: 0 <= i < |a| ==> a[i].event == b[i].event && a[i].receivedAt == b[i].receivedAt
  }

  predicate Among(es: seq<Event>, id: string) {
    exists j :: 0 <= j < |es| && es[j].eventId == id
  }

  /** Applying several events: the first match among them decides a fresh order; all end up processed. */
  lemma {:induction false} ApplyAllDecides(db: Db, now: Time, o: OrderId, es: seq<Event>)
    requires o in db.orders && OutcomeOf(db.orders[o].status).None?
    ensures Moves(db, ApplyAll(db, now, o, es), o, FirstMatch(es, db.orders[o].amount, db.orders[o].currency))
    ensures var db' := ApplyAll(db, now, o, es);
      && SameEvents(db'.events, db.events)
      && (forall i :: 0 <= i < |db.events| ==>
            (db'.events[i].processedAt.Some? <==>
               db.events[i].processedAt.Some? || Among(es, db.events[i].event.eventId)))
  {
    if es != [] {
      var front, e := es[..|es| - 1], es[|es| - 1];
      assert es == front + [e];
      ApplyAllDecides(db, now, o, front);
      ApplyDecides(ApplyAll(db, now, o, front), now, o, e);
      FirstMatchAppend(front, e, db.orders[o].amount, db.orders[o].currency);
      forall id
        ensures Among(es, id) <==> Among(front, id) || e.eventId == id
      {
        if Among(front, id) {
          var j :| 0 <= j < |front| && front[j].eventId == id;
          assert es[j].eventId == id;
        }
        if e.eventId == id {
          assert es[|es| - 1].eventId == id;
        }
      }
    }
  }

  /** The list of events after a new one: one row longer, and only the new row may be marked. */
  lemma StoredEvents(db: Db, now: Time, now': Time, e: Event, mark: bool)
    requires EventsOk(db, now) && now < now' && !Seen(db.events, e.eventId)
    requires mark <==> e.orderId in db.orders
    ensures var added := db.events + [EventRow(e, now', None)];
      var events := if mark then MarkProcessed(added, e.eventId, now') else added;
      && InArrivalOrder(events) && DistinctIds(events)
      && (forall i :: 0 <= i < |events| ==> events[i].receivedAt <= now')
      && (forall i :: 0 <= i < |events| ==> (events[i].processedAt.Some? <==> events[i].event.orderId in db.orders))
      && (forall i :: 0 <= i < |events| ==> events[i].event == added[i].event)
  {
  }

  lemma ProcessPaymentDecides(db: Db, now: Time, now': Time, e: Event)
    requires EventsOk(db, now) && now < now'
    ensures EventsOk(ProcessPayment(db, now', e), now')
  {
    if !Seen(db.events, e.eventId) {
      var row := EventRow(e, now', None);
      var stored := db.(events := db.events + [row]);
      var db' := ProcessPayment(db, now', e);
      StoredEvents(db, now, now', e, e.orderId in db.orders);
      if e.orderId in db.orders {
        ApplyDecides(stored, now', e.orderId, e);
      }
      forall o | o in db'.orders
        ensures Decided(db'.orders[o], EventsOf(db'.events, o))
      {
        StoredDecides(db, now', e, o);
      }
    }
  }

  lemma StoredDecides(db: Db, now': Time, e: Event, o: OrderId)
    requires !Seen(db.events, e.eventId)
    requires o in db.orders && Decided(db.orders[o], EventsOf(db.events, o))
    ensures o in ProcessPayment(db, now', e).orders
    ensures Decided(ProcessPayment(db, now', e).orders[o], EventsOf(ProcessPayment(db, now', e).events, o))
  {
    var row := EventRow(e, now', None);
    var stored := db.(events := db.events + [row]);
    if e.orderId in db.orders {
      ApplyDecides(stored, now', e.orderId, e);
    }
    EventsOfAppend(db.events, row, o);
    EventsOfSame(ProcessPayment(db, now', e).events, stored.events, o);
    if e.orderId == o {
      FirstMatchAppend(EventsOf(db.events, o), e, db.orders[o].amount, db.orders[o].currency);
    } else {
      assert EventsOf(stored.events, o) == EventsOf(db.events, o);
    }
  }

  /** The ids of the pending events of an order are those of its unprocessed rows. */
  lemma {:induction false} AmongEventsOf(events: seq<EventRow>, o: OrderId, i: nat)
    requires i < |events| && events[i].event.orderId == o
    ensures Among(EventsOf(events, o), events[i].event.eventId)
  {
    var front, last := events[..|events| - 1], events[|events| - 1];
    if i < |front| {
      AmongEventsOf(front, o, i);
      var j :| 0 <= j < |EventsOf(front, o)| && EventsOf(front, o)[j].eventId == events[i].event.eventId;
      assert EventsOf(events, o)[j].eventId == events[i].event.eventId;
    } else {
      assert EventsOf(events, o)[|EventsOf(front, o)|] == last.event;
    }
  }

  lemma {:induction false} EventsOfOrigin(events: seq<EventRow>, o: OrderId, e: Event)
    requires e in EventsOf(events, o)
    ensures e.orderId == o && exists i :: 0 <= i < |events| && events[i].event == e
  {
    var front, last := events[..|events| - 1], events[|events| - 1];
    if last.event != e {
      EventsOfOrigin(front, o, e);
      var i :| 0 <= i < |front| && front[i].event == e;
      assert events[i].event == e;
    } else if e.orderId != o {
      EventsOfOrigin(front, o, e);
    } else {
      assert events[|events| - 1].event == e;
    }
  }

  lemma CreateDecides(db: Db, now: Time, now': Time, o: OrderId, sku: string)
    requires EventsOk(db, now) && now < now'
    ensures EventsOk(Create(db, now', o, sku).0, now')
  {
    if o !in db.orders && sku in db.products && db.products[sku].active {
      var inserted := InsertOrder(db, now', o, sku);
      var es := EventsOf(db.events, o);
      AllPending(db.events, o);
      ApplyAllDecides(inserted, now', o, es);
      var db' := Create(db, now', o, sku).0;
      assert SameEvents(db'.events, db.events);
      forall i | 0 <= i < |db'.events|
        ensures db'.events[i].processedAt.Some? <==> db'.events[i].event.orderId in db'.orders
      {
        CreateProcesses(db, o, i);
      }
      EventsKept(db.events, db'.events, now, now');
      CreatedDecided(db, db', o);
    }
  }

  lemma EventsKept(a: seq<EventRow>, b: seq<EventRow>, now: Time, now': Time)
    requires InArrivalOrder(a) && DistinctIds(a) && SameEvents(b, a) && now < now'
    requires forall i :: 0 <= i < |a| ==> a[i].receivedAt <= now
    ensures InArrivalOrder(b) && DistinctIds(b)
    ensures forall i :: 0 <= i < |b| ==> b[i].receivedAt <= now'
  {
  }

  lemma CreatedDecided(db: Db, db': Db, o: OrderId)
    requires SameEvents(db'.events, db.events)
    requires db'.orders.Keys == db.orders.Keys + {o}
    requires forall x :: x in db.orders && x != o ==>
               db'.orders[x] == db.orders[x] && Decided(db.orders[x], EventsOf(db.events, x))
    requires Decided(db'.orders[o], EventsOf(db.events, o))
    ensures forall x :: x in db'.orders ==> Decided(db'.orders[x], EventsOf(db'.events, x))
  {
    forall x | x in db'.orders
      ensures Decided(db'.orders[x], EventsOf(db'.events, x))
    {
      EventsOfSame(db'.events, db.events, x);
    }
  }

  /** Exactly the rows of the order are among its pending events. */
  lemma CreateProcesses(db: Db, o: OrderId, i: nat)
    requires DistinctIds(db.events) && i < |db.events|
    ensures Among(EventsOf(db.events, o), db.events[i].event.eventId) <==> db.events[i].event.orderId == o
  {
    var es := EventsOf(db.events, o);
    if db.events[i].event.orderId == o {
      AmongEventsOf(db.events, o, i);
    }
    if Among(es, db.events[i].event.eventId) {
      var j :| 0 <= j < |es| && es[j].eventId == db.events[i].event.eventId;
      EventsOfOrigin(db.events, o, es[j]);
    }
  }

  /** The paid event that stands behind a paid order. */
  lemma {:induction false} FirstMatchWitness(es: seq<Event>, amount: nat, currency: string)
    requires FirstMatch(es, amount, currency).Some?
    ensures exists e :: e in es && Matches(e, amount, currency) && Some(e.status) == FirstMatch(es, amount, currency)
  {
    if Matches(es[0], amount, currency) {
      assert es[0] in es;
    } else {
      FirstMatchWitness(es[1..], amount, currency);
    }
  }
}
