/** What the reconciliation report says of tables that have been damaged. */
module Damage {
  import opened Prelude
  import opened Model
  import opened Status
  import opened World
  import opened Safety
  import opened Reports

  /** What can be wrong with one order. */
  datatype Fault =
    | LostJob | LostPaidAt | LostPayment | ExtraPayment | LostDelivery | ExtraDelivery
    | WrongStatus(status: OrderStatus)

  function Without(ledger: seq<LedgerEntry>, o: OrderId, kind: EntryKind): seq<LedgerEntry> {
    if ledger == [] then []
    else
      var e := ledger[|ledger| - 1];
      Without(ledger[..|ledger| - 1], o, kind) + if e.orderId == o && e.kind == kind then [] else [e]
  }

  lemma {:induction false} CountWithout(ledger: seq<LedgerEntry>, o: OrderId, kind: EntryKind, x: OrderId, k: EntryKind)
    ensures Count(Without(ledger, o, kind), x, k) == if x == o && k == kind then 0 else Count(ledger, x, k)
  {
    if ledger != [] {
      var front, e := Without(ledger[..|ledger| - 1], o, kind), ledger[|ledger| - 1];
      CountWithout(ledger[..|ledger| - 1], o, kind, x, k);
      assert (front + [e])[..|front|] == front && front + [] == front;
    }
  }

  lemma CountWith(ledger: seq<LedgerEntry>, e: LedgerEntry, x: OrderId, k: EntryKind)
    ensures Count(ledger + [e], x, k) == Count(ledger, x, k) + if e.orderId == x && e.kind == k then 1 else 0
  {
    assert (ledger + [e])[..|ledger|] == ledger;
  }

  function Damaged(db: Db, o: OrderId, f: Fault): Db
    requires o in db.orders
  {
    match f
    case LostJob => db.(attempts := db.attempts - {o})
    case LostPaidAt => db.(orders := db.orders[o := db.orders[o].(paidAt := None)])
    case LostPayment => db.(ledger := Without(db.ledger, o, EntryPayment))
    case ExtraPayment => db.(ledger := db.ledger + [LedgerEntry(o, EntryPayment, 0, "")])
    case LostDelivery => db.(ledger := Without(db.ledger, o, EntryDelivery))
    case ExtraDelivery => db.(ledger := db.ledger + [LedgerEntry(o, EntryDelivery, 0, "")])
    case WrongStatus(s) => db.(orders := db.orders[o := db.orders[o].(status := s)])
  }

  /** Whether a list names an order whose status was `s` before the damage. */
  predicate Named(kind: IssueType, f: Fault, s: OrderStatus) {
    var delivered := s == OrderDelivered;
    var paid := Owed(s) || delivered;
    match f
    case LostJob => kind == PaidNotDelivered && paid
    case LostPaidAt => (kind == PaidNotDelivered && Owed(s)) || (kind == DeliveredNotPaid && delivered)
    case LostPayment =>
      || (kind == PaidNotDelivered && Owed(s)) || (kind == DeliveredNotPaid && delivered)
      || (kind == LedgerMismatch && paid)
    case ExtraPayment => (kind == PaidNotDelivered && !delivered) || (kind == LedgerMismatch && paid)
    case LostDelivery => (kind == PaidNotDelivered && Owed(s)) || (kind == LedgerMismatch && delivered)
    case ExtraDelivery => (kind == PaidNotDelivered && Owed(s)) || (kind == LedgerMismatch && delivered)
    case WrongStatus(now) =>
      || (kind == PaidNotDelivered && Owed(s))
      || (kind == OrderMismatch && paid && (delivered != (now == OrderDelivered)))
      || (kind == LedgerMismatch && !delivered && now == OrderDelivered)
  }

  /** The entries of any order after the damage. */
  lemma DamagedCount(db: Db, o: OrderId, f: Fault, x: OrderId, k: EntryKind)
    requires o in db.orders
    ensures Count(Damaged(db, o, f).ledger, x, k) ==
            if x == o && ((f.LostPayment? && k == EntryPayment) || (f.LostDelivery? && k == EntryDelivery)) then 0
            else if x == o && ((f.ExtraPayment? && k == EntryPayment) || (f.ExtraDelivery? && k == EntryDelivery))
            then Count(db.ledger, x, k) + 1
            else Count(db.ledger, x, k)
  {
    CountWithout(db.ledger, o, EntryPayment, x, k);
    CountWithout(db.ledger, o, EntryDelivery, x, k);
    CountWith(db.ledger, LedgerEntry(o, EntryPayment, 0, ""), x, k);
    CountWith(db.ledger, LedgerEntry(o, EntryDelivery, 0, ""), x, k);
  }

  /** Which lists name the damaged order. */
  lemma DamagedOrder(db: Db, o: OrderId, f: Fault, kind: IssueType)
    requires Consistent(db) && o in db.orders
    ensures Flagged(kind, Damaged(db, o, f), o) <==> Named(kind, f, db.orders[o].status)
  {
    if f.LostJob? || f.LostPaidAt? || f.WrongStatus? {
      DamagedTables(db, o, f, kind);
    } else {
      DamagedLedger(db, o, f, kind);
    }
  }

  lemma DamagedTables(db: Db, o: OrderId, f: Fault, kind: IssueType)
    requires Consistent(db) && o in db.orders && (f.LostJob? || f.LostPaidAt? || f.WrongStatus?)
    ensures Flagged(kind, Damaged(db, o, f), o) <==> Named(kind, f, db.orders[o].status)
  {
    assert OrderOk(db, o);
  }

  lemma DamagedLedger(db: Db, o: OrderId, f: Fault, kind: IssueType)
    requires Consistent(db) && o in db.orders && !f.LostJob? && !f.LostPaidAt? && !f.WrongStatus?
    ensures Flagged(kind, Damaged(db, o, f), o) <==> Named(kind, f, db.orders[o].status)
  {
    assert OrderOk(db, o);
    DamagedCount(db, o, f, o, EntryPayment);
    DamagedCount(db, o, f, o, EntryDelivery);
  }

  /** The other orders are named as before. */
  lemma OtherOrders(db: Db, o: OrderId, f: Fault, kind: IssueType, x: OrderId)
    requires o in db.orders && x in db.orders && x != o
    ensures x in Damaged(db, o, f).orders
    ensures Flagged(kind, Damaged(db, o, f), x) <==> Flagged(kind, db, x)
  {
    DamagedCount(db, o, f, x, EntryPayment);
    DamagedCount(db, o, f, x, EntryDelivery);
  }

  lemma Listed(kind: IssueType, db: Db, rows: seq<Row>, o: OrderId)
    requires Lists(kind, db, rows) && o in db.orders
    ensures o in Ids(rows) <==> Flagged(kind, db, o)
  {
    if Flagged(kind, db, o) {
      var i :| 0 <= i < |rows| && rows[i].orderId == o;
      assert rows[i] in rows;
    }
  }

  /**
   * From any reachable state, after one fault in one order: each of the four lists names that order
   * exactly as the table above says, and of the others exactly those that are owed, in the first list.
   */
  lemma FaultIsReported(cfg: Config, w: World, o: OrderId, f: Fault, kind: IssueType, rows: seq<Row>, x: OrderId)
    requires Reachable(cfg, w) && o in w.db.orders && x in w.db.orders
    requires Lists(kind, Damaged(w.db, o, f), rows)
    ensures x in Ids(rows) <==>
            if x == o then Named(kind, f, w.db.orders[o].status)
            else kind == PaidNotDelivered && Owed(w.db.orders[x].status)
  {
    assert Consistent(w.db) by { ReachableSafe(cfg, w); }
    if x == o {
      DamagedOrder(w.db, o, f, kind);
    } else {
      OtherOrders(w.db, o, f, kind, x);
      ConsistentFlags(w.db, x);
    }
    Listed(kind, Damaged(w.db, o, f), rows, x);
  }

  /**
   * From any reachable state, after the loss of any set of job rows: the first list names the orders
   * that are owed and the delivered orders whose job is lost, and the others name none.
   */
  lemma LossIsReported(cfg: Config, w: World, lost: set<OrderId>, kind: IssueType, rows: seq<Row>, x: OrderId)
    requires Reachable(cfg, w) && x in w.db.orders
    requires Lists(kind, w.db.(attempts := w.db.attempts - lost), rows)
    ensures x in Ids(rows) <==>
            kind == PaidNotDelivered &&
            (Owed(w.db.orders[x].status) || (x in lost && w.db.orders[x].status == OrderDelivered))
  {
    assert OrderOk(w.db, x) by { ReachableSafe(cfg, w); }
    Listed(kind, w.db.(attempts := w.db.attempts - lost), rows, x);
  }

  /** Which single faults the report cannot see, because its lists are those without the fault. */
  lemma UnseenFaults(f: Fault, s: OrderStatus)
    ensures (forall kind :: Named(kind, f, s) <==> kind == PaidNotDelivered && Owed(s)) <==>
            match f
            case LostJob => s != OrderDelivered
            case LostPaidAt => s != OrderDelivered
            case LostPayment => s == OrderCreated || s == OrderPaymentFailed
            case ExtraPayment => false
            case LostDelivery => s != OrderDelivered
            case ExtraDelivery => s != OrderDelivered
            case WrongStatus(now) =>
              (s == OrderDelivered <==> now == OrderDelivered)
  {
    assert Named(OrderMismatch, f, s) || !Named(OrderMismatch, f, s);
    assert Named(LedgerMismatch, f, s) || !Named(LedgerMismatch, f, s);
    assert Named(DeliveredNotPaid, f, s) || !Named(DeliveredNotPaid, f, s);
    assert Named(PaidNotDelivered, f, s) || !Named(PaidNotDelivered, f, s);
  }
}
