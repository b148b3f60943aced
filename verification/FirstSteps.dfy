/** A small world to start examples from: one product, one order, paid. */
module FirstSteps {
  import opened Prelude
  import opened Model
  import opened World
  import Payments

  const ORDER: OrderId := "o"
  const SKU := "s"

  const PAID_EVENT := Event("e", ORDER, EventPaid, 0, "RUB")

  /** A product is stocked, an order is created, and it is paid. */
  const PAID: seq<Action> := [
    Shop(PutProduct(SKU, Product(0, "RUB", true))),
    Shop(CreateOrder(ORDER, SKU)),
    Shop(Webhook(PAID_EVENT))]

  function Stocked(): Db {
    EMPTY_DB.(products := map[SKU := Product(0, "RUB", true)])
  }

  function Ordered(): Db {
    Stocked().(orders := map[ORDER := Order(SKU, 0, "RUB", OrderCreated, None, None, 2)])
  }

  function Paid(): Db {
    Stocked().(
      orders := map[ORDER := Order(SKU, 0, "RUB", OrderPaid, Some(3), None, 2)],
      events := [EventRow(PAID_EVENT, 3, Some(3))],
      attempts := map[ORDER := NewAttempt(ORDER, 3)],
      ledger := [LedgerEntry(ORDER, EntryPayment, 0, "RUB")])
  }

  lemma OrderedStep()
    ensures Payments.Create(Stocked(), 2, ORDER, SKU).0 == Ordered()
  {
    assert Payments.Pending([], ORDER) == [];
  }

  lemma PaidStep()
    ensures Payments.ProcessPayment(Ordered(), 3, PAID_EVENT) == Paid()
  {
    var stored := Ordered().(events := [EventRow(PAID_EVENT, 3, None)]);
    assert Ordered().events + [EventRow(PAID_EVENT, 3, None)] == stored.events;
    var ord := stored.orders[ORDER];
    assert Payments.MarkPaid(ord, 3) == Paid().orders[ORDER];
    assert InsertEntry([], LedgerEntry(ORDER, EntryPayment, 0, "RUB")) == [LedgerEntry(ORDER, EntryPayment, 0, "RUB")];
    assert Payments.ApplyPaid(stored, 3, ORDER) == Paid().(events := stored.events);
    assert Payments.MarkProcessed(stored.events, "e", 3) == Paid().events;
  }

  lemma PaidWorld(cfg: Config)
    ensures Run(cfg, START, PAID) == World(Paid(), 3, map[])
  {
    var w1 := World(Stocked(), 1, map[]);
    var w2 := World(Ordered(), 2, map[]);
    assert PAID == [PAID[0]] + ([PAID[1]] + ([PAID[2]] + []));
    RunCons(cfg, START, PAID[0], [PAID[1]] + ([PAID[2]] + []));
    assert Next(cfg, START, PAID[0]) == w1;
    RunCons(cfg, w1, PAID[1], [PAID[2]] + []);
    OrderedStep();
    assert Next(cfg, w1, PAID[1]) == w2;
    RunCons(cfg, w2, PAID[2], []);
    PaidStep();
  }
}
