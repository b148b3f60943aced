/** How many keys an order costs, and exactly when it costs two. */
module TwoKeys {
  import opened Prelude
  import opened Model
  import opened Providers
  import opened Stock
  import opened World
  import opened Safety

  // ----- the keys of an order -----

  function KeysOf(keys: seq<Key>, o: OrderId): set<nat> {
    set i: nat | i < |keys| && keys[i].issued && keys[i].orderId == Some(o)
  }

  function KeysAt(keys: seq<Key>, p: Provider, o: OrderId): set<nat> {
    set i | i in KeysOf(keys, o) && keys[i].provider == p
  }

  lemma KeyHasIssue(db: Db, p: Provider, o: OrderId, i: nat)
    requires StockOk(db.keys, db.issues) && IssuesOk(db) && i in KeysAt(db.keys, p, o)
    ensures (p, RequestIdFor(o)) in db.issues
  {
    assert KeyOk(db.keys[i], db.issues);
    var r := db.keys[i].requestId.value;
    assert IssueOk(db.orders, r, db.issues[(p, r)]);
  }

  lemma KeysAtCount(db: Db, p: Provider, o: OrderId)
    requires StockOk(db.keys, db.issues) && IssuesOk(db)
    ensures |KeysAt(db.keys, p, o)| == if (p, RequestIdFor(o)) in db.issues then 1 else 0
  {
    var s := KeysAt(db.keys, p, o);
    if (p, RequestIdFor(o)) in db.issues {
      var row := db.issues[(p, RequestIdFor(o))];
      assert IssueOk(db.orders, RequestIdFor(o), row);
      RequestIdInjective(o, row.orderId);
      assert HasKey(db.keys, p, RequestIdFor(o), row);
      var i: nat :| i < |db.keys| && Backs(db.keys[i], p, RequestIdFor(o), row);
      forall j | j in s
        ensures j == i
      {
        OneKeyPerProvider(db, i, j);
      }
      assert s == {i};
    } else if s != {} {
      var i :| i in s;
      KeyHasIssue(db, p, o, i);
      assert false;
    }
  }

  /** An order has cost as many keys as there are providers that have issued for it. */
  lemma KeysOfCount(db: Db, o: OrderId)
    requires StockOk(db.keys, db.issues) && IssuesOk(db)
    ensures |KeysOf(db.keys, o)| ==
            (if (ProviderA, RequestIdFor(o)) in db.issues then 1 else 0) +
            (if (ProviderB, RequestIdFor(o)) in db.issues then 1 else 0)
  {
    KeysAtCount(db, ProviderA, o);
    KeysAtCount(db, ProviderB, o);
    KeysOfSplit(db.keys, o);
  }

  lemma KeysOfSplit(keys: seq<Key>, o: OrderId)
    ensures |KeysOf(keys, o)| == |KeysAt(keys, ProviderA, o)| + |KeysAt(keys, ProviderB, o)|
  {
    var a, b := KeysAt(keys, ProviderA, o), KeysAt(keys, ProviderB, o);
    assert KeysOf(keys, o) == a + b;
    assert a !! b;
  }

  // ----- the second key -----

  function Other(p: Provider): Provider {
    if p.ProviderA? then ProviderB else ProviderA
  }

  /** A call for request `r` arrives at one provider and spends a key there, while the other has already issued. */
  predicate SecondIssue(db: Db, wk: Worker, tr: Transit, r: string) {
    && Arrives(tr) && wk.job.requestId == r
    && Allocates(db, ProviderOf(wk.phase), RequestOf(wk.job), tr.refuse)
    && (Other(ProviderOf(wk.phase)), r) in db.issues
  }

  predicate Doubles(w: World, a: Action, r: string) {
    && a.Act? && a.act.CallProvider? && Enabled(w, w.now + 1, a.worker, a.act)
    && SecondIssue(w.db, w.workers[a.worker], a.act.transit, r)
  }

  lemma CallDoubles(db: Db, t: Time, wk: Worker, tr: Transit, r: string)
    requires !TwiceIssued(db, r)
    ensures TwiceIssued(DoCall(db, t, wk, tr).0, r) <==> SecondIssue(db, wk, tr, r)
  {
    if Arrives(tr) {
      IssueAllocates(db, t, ProviderOf(wk.phase), RequestOf(wk.job), tr.refuse);
    }
  }

  lemma ActDoubles(cfg: Config, w: World, i: nat, act: WorkerAction, r: string)
    requires Enabled(w, w.now + 1, i, act) && !TwiceIssued(w.db, r)
    ensures TwiceIssued(ActDb(cfg, w, w.now + 1, i, act), r) <==> Doubles(w, Act(i, act), r)
  {
    if act.CallProvider? {
      CallDoubles(w.db, w.now + 1, w.workers[i], act.transit, r);
    }
  }

  /** One step gives a request its second issue exactly if it is such a call. */
  lemma StepDoubles(cfg: Config, w: World, a: Action, r: string)
    requires !TwiceIssued(w.db, r)
    ensures TwiceIssued(Next(cfg, w, a).db, r) <==> Doubles(w, a, r)
  {
    match a
    case Wait(_) =>
    case Shop(s) =>
      NextShop(cfg, w, s);
      ShopIssues(w.db, w.now + 1, s);
    case Upkeep(u) =>
      NextUpkeep(cfg, w, u);
      UpkeepStock(w.db, w.now + 1, u);
    case Act(i, act) =>
      if Enabled(w, w.now + 1, i, act) {
        NextAct(cfg, w, i, act);
        ActDoubles(cfg, w, i, act, r);
      }
  }

  lemma {:induction false} RunDoubles(cfg: Config, acts: seq<Action>, r: string)
    ensures TwiceIssued(Run(cfg, START, acts).db, r) <==>
            exists k :: 0 <= k < |acts| && Doubles(Run(cfg, START, acts[..k]), acts[k], r)
    decreases |acts|
  {
    if acts != [] {
      var front, last := acts[..|acts| - 1], acts[|acts| - 1];
      var w := Run(cfg, START, front);
      assert acts == front + [last];
      RunAppend(cfg, START, front, [last]);
      RunOne(cfg, w, last);
      RunDoubles(cfg, front, r);
      assert forall k :: 0 <= k < |front| ==> front[..k] == acts[..k] && front[k] == acts[k];
      SafeStart(cfg);
      RunSafe(cfg, START, front);
      if TwiceIssued(w.db, r) {
        NextLater(cfg, w, last);
        var k :| 0 <= k < |front| && Doubles(Run(cfg, START, front[..k]), front[k], r);
        assert Doubles(Run(cfg, START, acts[..k]), acts[k], r);
      } else {
        StepDoubles(cfg, w, last, r);
      }
    }
  }

  /**
   * Over any run an order costs at most two keys, and two exactly if at some step a call for it
   * arrives at a provider that has not issued for it, is well formed, is not refused and finds a free
   * key of its SKU, while the other provider has issued for it already.
   */
  lemma TwoKeysExactly(cfg: Config, acts: seq<Action>, o: OrderId)
    ensures |KeysOf(Run(cfg, START, acts).db.keys, o)| <= 2
    ensures |KeysOf(Run(cfg, START, acts).db.keys, o)| == 2 <==>
            exists k :: 0 <= k < |acts| && Doubles(Run(cfg, START, acts[..k]), acts[k], RequestIdFor(o))
  {
    SafeStart(cfg);
    RunSafe(cfg, START, acts);
    KeysOfCount(Run(cfg, START, acts).db, o);
    RunDoubles(cfg, acts, RequestIdFor(o));
  }
}
