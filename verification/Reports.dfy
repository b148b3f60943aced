/** The reconciliation report: four queries, and what they find on reachable states. */
module Reports {
  import opened Prelude
  import opened Model
  import opened Status
  import opened World
  import opened Safety

  datatype IssueType = PaidNotDelivered | DeliveredNotPaid | OrderMismatch | LedgerMismatch

  datatype Row = Row(
    kind: IssueType, orderId: OrderId, sku: string,
    orderStatus: OrderStatus, jobStatus: Option<JobStatus>, requestId: Option<string>,
    paidAt: Option<Time>, deliveredAt: Option<Time>, payments: nat, deliveries: nat)

  datatype Summary = Summary(
    paidNotDelivered: nat, deliveredNotPaid: nat, statusMismatches: nat, ledgerMismatches: nat, total: nat)

  datatype Report = Report(
    paidNotDelivered: seq<Row>, deliveredNotPaid: seq<Row>, statusMismatches: seq<Row>, ledgerMismatches: seq<Row>,
    summary: Summary)

  predicate HasEntry(db: Db, o: OrderId, kind: EntryKind) {
    Count(db.ledger, o, kind) > 0
  }

  /** The WHERE clauses. */
  predicate Flagged(kind: IssueType, db: Db, o: OrderId)
    requires o in db.orders
  {
    var ord := db.orders[o];
    var delivered := o in db.attempts && db.attempts[o].status.JobDelivered?;
    match kind
    case PaidNotDelivered => (ord.paidAt.Some? || HasEntry(db, o, EntryPayment)) && !delivered
    case DeliveredNotPaid => delivered && (ord.paidAt.None? || !HasEntry(db, o, EntryPayment))
    case OrderMismatch => o in db.attempts && (ord.status.OrderDelivered? != delivered)
    case LedgerMismatch =>
      (ord.paidAt.Some? && Count(db.ledger, o, EntryPayment) != 1) ||
      (ord.status.OrderDelivered? && Count(db.ledger, o, EntryDelivery) != 1)
  }

  function RowFor(kind: IssueType, db: Db, o: OrderId): Row
    requires o in db.orders
  {
    var ord := db.orders[o];
    Row(kind, o, ord.sku, ord.status,
        if o in db.attempts then Some(db.attempts[o].status) else None,
        if o in db.attempts then Some(db.attempts[o].requestId) else None,
        ord.paidAt, ord.deliveredAt, Count(db.ledger, o, EntryPayment), Count(db.ledger, o, EntryDelivery))
  }

  /** `ORDER BY o.created_at, o.id`. */
  predicate RowBefore(db: Db, a: OrderId, b: OrderId)
    requires a in db.orders && b in db.orders
  {
    db.orders[a].createdAt < db.orders[b].createdAt ||
    (db.orders[a].createdAt == db.orders[b].createdAt && Less(a, b))
  }

  ghost predicate InOrder(db: Db, ids: seq<OrderId>) {
    && (forall o :: o in ids ==> o in db.orders)
    && forall i, j :: 0 <= i < j < |ids| ==> RowBefore(db, ids[i], ids[j])
  }

  /** The row shows the order it names, its job if it has one, and its entries. */
  ghost predicate Shows(kind: IssueType, db: Db, row: Row)
    requires row.orderId in db.orders
  {
    var o := row.orderId;
    var ord := db.orders[o];
    && row.kind == kind && row.sku == ord.sku && row.orderStatus == ord.status
    && row.paidAt == ord.paidAt && row.deliveredAt == ord.deliveredAt
    && (if o in db.attempts
        then row.jobStatus == Some(db.attempts[o].status) && row.requestId == Some(db.attempts[o].requestId)
        else row.jobStatus == None && row.requestId == None)
    && row.payments == Count(db.ledger, o, EntryPayment) && row.deliveries == Count(db.ledger, o, EntryDelivery)
  }

  /** The rows are those of exactly the flagged orders, each once, by creation and then by id. */
  ghost predicate Lists(kind: IssueType, db: Db, rows: seq<Row>) {
    && (forall i :: 0 <= i < |rows| ==>
          rows[i].orderId in db.orders && Flagged(kind, db, rows[i].orderId) && Shows(kind, db, rows[i]))
    && (forall o :: o in db.orders && Flagged(kind, db, o) ==> exists i :: 0 <= i < |rows| && rows[i].orderId == o)
    && (forall i, j :: 0 <= i < j < |rows| ==>
          var a, b := rows[i].orderId, rows[j].orderId;
          && db.orders[a].createdAt <= db.orders[b].createdAt
          && (db.orders[a].createdAt == db.orders[b].createdAt ==> Less(a, b)))
  }

  lemma RowBeforeTransitive(db: Db, a: OrderId, b: OrderId, c: OrderId)
    requires a in db.orders && b in db.orders && c in db.orders
    requires RowBefore(db, a, b) && RowBefore(db, b, c)
    ensures RowBefore(db, a, c)
  {
    if Less(a, b) && Less(b, c) {
      LessTransitive(a, b, c);
    }
  }

  /** Puts an id into its place among sorted ids. */
  method Place(db: Db, ids: seq<OrderId>, o: OrderId) returns (r: seq<OrderId>)
    requires InOrder(db, ids) && o in db.orders && o !in ids
    ensures InOrder(db, r)
    ensures forall x :: x in r <==> x in ids || x == o
  {
    var k := 0;
    while k < |ids| && RowBefore(db, ids[k], o)
      invariant 0 <= k <= |ids|
      invariant forall i :: 0 <= i < k ==> RowBefore(db, ids[i], o)
    {
      k := k + 1;
    }
    r := ids[..k] + [o] + ids[k..];
    if k < |ids| {
      assert ids[k] != o;
      LessConnected(ids[k], o);
      forall i | k <= i < |ids|
        ensures RowBefore(db, o, ids[i])
      {
        if k < i {
          RowBeforeTransitive(db, o, ids[k], ids[i]);
        }
      }
    }
    forall x
      ensures x in r <==> x in ids || x == o
    {
      assert ids == ids[..k] + ids[k..];
    }
  }

  /** One of the four queries. */
  method FindIssues(db: Db, kind: IssueType) returns (rows: seq<Row>)
    ensures Lists(kind, db, rows)
  {
    var ids: seq<OrderId> := [];
    var rest := db.orders.Keys;
    while rest != {}
      invariant rest <= db.orders.Keys
      invariant InOrder(db, ids)
      invariant forall o :: o in ids <==> o in db.orders && o !in rest && Flagged(kind, db, o)
      decreases rest
    {
      var o :| o in rest;
      rest := rest - {o};
      if Flagged(kind, db, o) {
        ids := Place(db, ids, o);
      }
    }
    rows := [];
    for i := 0 to |ids|
      invariant |rows| == i && forall j :: 0 <= j < i ==> rows[j] == RowFor(kind, db, ids[j])
    {
      rows := rows + [RowFor(kind, db, ids[i])];
    }
    forall o | o in db.orders && Flagged(kind, db, o)
      ensures exists i :: 0 <= i < |rows| && rows[i].orderId == o
    {
      var i :| 0 <= i < |ids| && ids[i] == o;
      assert rows[i].orderId == o;
    }
  }

  // ----- what is found on a consistent database -----

  /** An order that has been paid for and not delivered, by its status alone. */
  predicate Owed(s: OrderStatus) {
    s.OrderPaid? || s.OrderDelivering? || s.OrderOutOfStock? || s.OrderDeliveryFailed?
  }

  /** Three of the queries never find anything, and the first finds exactly the orders that are owed. */
  lemma ConsistentFlags(db: Db, o: OrderId)
    requires Consistent(db) && o in db.orders
    ensures Flagged(PaidNotDelivered, db, o) <==> Owed(db.orders[o].status)
    ensures !Flagged(DeliveredNotPaid, db, o)
    ensures !Flagged(OrderMismatch, db, o)
    ensures !Flagged(LedgerMismatch, db, o)
  {
    assert OrderOk(db, o);
  }

  /** The lengths of the four lists, and their sum. */
  function Sizes(report: Report): Summary {
    var (a, b, c, d) := (|report.paidNotDelivered|, |report.deliveredNotPaid|,
                         |report.statusMismatches|, |report.ledgerMismatches|);
    Summary(a, b, c, d, a + b + c + d)
  }

  /** The four queries run one after the other, so each may see a different state of the tables. */
  method BuildReport(d1: Db, d2: Db, d3: Db, d4: Db) returns (report: Report)
    ensures Lists(PaidNotDelivered, d1, report.paidNotDelivered)
    ensures Lists(DeliveredNotPaid, d2, report.deliveredNotPaid)
    ensures Lists(OrderMismatch, d3, report.statusMismatches)
    ensures Lists(LedgerMismatch, d4, report.ledgerMismatches)
    ensures report.summary == Sizes(report)
  {
    var rows1 := FindIssues(d1, PaidNotDelivered);
    var rows2 := FindIssues(d2, DeliveredNotPaid);
    var rows3 := FindIssues(d3, OrderMismatch);
    var rows4 := FindIssues(d4, LedgerMismatch);
    var summary := Summary(|rows1|, |rows2|, |rows3|, |rows4|, |rows1| + |rows2| + |rows3| + |rows4|);
    report := Report(rows1, rows2, rows3, rows4, summary);
  }

  /** On a consistent database the other three queries find nothing. */
  lemma NothingListed(db: Db, kind: IssueType, rows: seq<Row>)
    requires Consistent(db) && !kind.PaidNotDelivered? && Lists(kind, db, rows)
    ensures rows == []
  {
    if rows != [] {
      ConsistentFlags(db, rows[0].orderId);
      assert false;
    }
  }

  function OwedOrders(db: Db): set<OrderId> {
    set o | o in db.orders && Owed(db.orders[o].status)
  }

  function Ids(rows: seq<Row>): set<OrderId> {
    set row | row in rows :: row.orderId
  }

  lemma {:induction false} IdsOnce(rows: seq<Row>)
    requires forall i, j :: 0 <= i < j < |rows| ==> rows[i].orderId != rows[j].orderId
    ensures |Ids(rows)| == |rows|
  {
    if rows != [] {
      var front, last := rows[..|rows| - 1], rows[|rows| - 1];
      IdsOnce(front);
      assert rows == front + [last];
      assert Ids(rows) == Ids(front) + {last.orderId};
    }
  }

  /** On a consistent database the first list has one row for each order that is owed. */
  lemma OwedListed(db: Db, rows: seq<Row>)
    requires Consistent(db) && Lists(PaidNotDelivered, db, rows)
    ensures Ids(rows) == OwedOrders(db) && |rows| == |OwedOrders(db)|
  {
    forall o | o in db.orders
      ensures o in Ids(rows) <==> Owed(db.orders[o].status)
    {
      ConsistentFlags(db, o);
    }
    forall i, j | 0 <= i < j < |rows|
      ensures rows[i].orderId != rows[j].orderId
    {
      LessIrreflexive(rows[i].orderId);
    }
    IdsOnce(rows);
  }

  /**
   * Whatever steps are taken between the four queries: on reachable states the report flags exactly
   * the orders that are owed at the first query and nothing else, and the total is their number.
   */
  lemma ReportIsExact(cfg: Config, w1: World, w2: World, w3: World, w4: World, report: Report)
    requires Reachable(cfg, w1) && Reachable(cfg, w2) && Reachable(cfg, w3) && Reachable(cfg, w4)
    requires Lists(PaidNotDelivered, w1.db, report.paidNotDelivered)
    requires Lists(DeliveredNotPaid, w2.db, report.deliveredNotPaid)
    requires Lists(OrderMismatch, w3.db, report.statusMismatches)
    requires Lists(LedgerMismatch, w4.db, report.ledgerMismatches) && report.summary == Sizes(report)
    ensures report.deliveredNotPaid == [] && report.statusMismatches == [] && report.ledgerMismatches == []
    ensures Ids(report.paidNotDelivered) == OwedOrders(w1.db)
    ensures report.summary == Summary(|OwedOrders(w1.db)|, 0, 0, 0, |OwedOrders(w1.db)|)
  {
    assert Consistent(w1.db) by { ReachableSafe(cfg, w1); }
    assert Consistent(w2.db) by { ReachableSafe(cfg, w2); }
    assert Consistent(w3.db) by { ReachableSafe(cfg, w3); }
    assert Consistent(w4.db) by { ReachableSafe(cfg, w4); }
    OwedListed(w1.db, report.paidNotDelivered);
    NothingListed(w2.db, DeliveredNotPaid, report.deliveredNotPaid);
    NothingListed(w3.db, OrderMismatch, report.statusMismatches);
    NothingListed(w4.db, LedgerMismatch, report.ledgerMismatches);
  }
}
