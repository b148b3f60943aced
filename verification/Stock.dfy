/** Keys are conserved, and issued keys correspond one to one with issue rows. */
module Stock {
  import opened Prelude
  import opened Model
  import opened Providers

  ghost predicate DistinctCodes(keys: seq<Key>) {
    forall i, j :: 0 <= i < j < |keys| ==> keys[i].code != keys[j].code
  }

  /** Key `k` is the one that issue row (p, r) records. */
  predicate Backs(k: Key, p: Provider, r: string, row: Issue) {
    && k.issued && k.provider == p && k.requestId == Some(r)
    && k.orderId == Some(row.orderId) && k.sku == row.sku && k.code == row.code
  }

  /** An issued key is recorded under its own provider and request; a free key is bound to nothing. */
  ghost predicate KeyOk(k: Key, issues: map<(Provider, string), Issue>) {
    if k.issued then
      k.requestId.Some? && (k.provider, k.requestId.value) in issues &&
      Backs(k, k.provider, k.requestId.value, issues[(k.provider, k.requestId.value)])
    else k.requestId.None? && k.orderId.None?
  }

  ghost predicate HasKey(keys: seq<Key>, p: Provider, r: string, row: Issue) {
    exists i :: 0 <= i < |keys| && Backs(keys[i], p, r, row)
  }

  ghost predicate StockOk(keys: seq<Key>, issues: map<(Provider, string), Issue>) {
    && DistinctCodes(keys)
    && (forall i :: 0 <= i < |keys| ==> KeyOk(keys[i], issues))
    && (forall p, r :: (p, r) in issues ==> HasKey(keys, p, r, issues[(p, r)]))
  }

  /** The issue was made for the order its request id names, for that order's SKU, and after it was paid. */
  predicate IssueOk(orders: map<OrderId, Order>, r: string, row: Issue) {
    && row.orderId in orders && r == RequestIdFor(row.orderId)
    && row.sku == orders[row.orderId].sku && orders[row.orderId].paidAt.Some?
    && row.orderId != "" && row.sku != ""
  }

  ghost predicate IssuesOk(db: Db) {
    forall p, r :: (p, r) in db.issues ==> IssueOk(db.orders, r, db.issues[(p, r)])
  }

  /** Both providers have issued for the request. */
  predicate TwiceIssued(db: Db, r: string) {
    (ProviderA, r) in db.issues && (ProviderB, r) in db.issues
  }

  function IssuedKeys(keys: seq<Key>): set<nat> {
    set i: nat | i < |keys| && keys[i].issued
  }

  /** No key is lost, and a binding, once made, stays. */
  ghost predicate KeysLater(a: seq<Key>, b: seq<Key>) {
    && |a| <= |b|
    && forall i :: 0 <= i < |a| ==>
      && b[i].provider == a[i].provider && b[i].sku == a[i].sku && b[i].code == a[i].code
      && (a[i].issued ==> b[i] == a[i])
  }

  ghost predicate IssuesLater(a: map<(Provider, string), Issue>, b: map<(Provider, string), Issue>) {
    forall k :: k in a ==> k in b && b[k] == a[k]
  }

  /** Issuing creates and destroys no key, unbinds none, and touches no other table. */
  lemma IssueConserves(db: Db, now: Time, p: Provider, r: Request, refuse: bool)
    ensures var db' := IssueCode(db, now, p, r, refuse).0;
      && db' == db.(keys := db'.keys, issues := db'.issues)
      && |db'.keys| == |db.keys|
      && KeysLater(db.keys, db'.keys)
      && IssuesLater(db.issues, db'.issues)
  {
  }

  /** A call adds its own issue exactly if it allocates, and no other. */
  lemma IssueAllocates(db: Db, t: Time, p: Provider, r: Request, refuse: bool)
    ensures IssueCode(db, t, p, r, refuse).0.issues.Keys ==
            db.issues.Keys + if Allocates(db, p, r, refuse) then {(p, r.requestId)} else {}
  {
  }

  /** A call that changes anything is the first for its request, and spends the free key that came first. */
  lemma IssueSpendsOneKey(db: Db, now: Time, p: Provider, r: Request, refuse: bool)
    requires IssueCode(db, now, p, r, refuse).0 != db
    ensures var (db', result) := IssueCode(db, now, p, r, refuse);
      && result.Issued?
      && (p, r.requestId) !in db.issues
      && db'.issues == db.issues[(p, r.requestId) := Issue(r.sku, r.orderId, result.code, now)]
    ensures exists i: nat ::
      && i < |db.keys| && db.keys[i].provider == p && db.keys[i].sku == r.sku && !db.keys[i].issued
      && (forall j :: 0 <= j < i && db.keys[j].provider == p && db.keys[j].sku == r.sku ==> db.keys[j].issued)
      && IssueCode(db, now, p, r, refuse).1 == Issued(db.keys[i].code)
      && IssuedKeys(IssueCode(db, now, p, r, refuse).0.keys) == IssuedKeys(db.keys) + {i}
  {
    var i := FirstFree(db.keys, p, r.sku);
    assert IssuedKeys(IssueCode(db, now, p, r, refuse).0.keys) == IssuedKeys(db.keys) + {i};
  }

  /** A result that carries a code is on record; any other answer to a proper request means there is no issue. */
  lemma IssueIsRecorded(db: Db, now: Time, p: Provider, r: Request, refuse: bool)
    ensures var (db', result) := IssueCode(db, now, p, r, refuse);
      && (result.Issued? ==> (p, r.requestId) in db'.issues && db'.issues[(p, r.requestId)].code == result.code)
      && (result.Refused? || result.NoStock? ==> db' == db && (p, r.requestId) !in db.issues)
  {
  }

  lemma IssueStock(db: Db, now: Time, p: Provider, r: Request, refuse: bool)
    requires StockOk(db.keys, db.issues)
    ensures var db' := IssueCode(db, now, p, r, refuse).0; StockOk(db'.keys, db'.issues)
  {
    var db' := IssueCode(db, now, p, r, refuse).0;
    if db' != db {
      var i := FirstFree(db.keys, p, r.sku);
      forall j | 0 <= j < |db'.keys|
        ensures KeyOk(db'.keys[j], db'.issues)
      {
        assert KeyOk(db.keys[j], db.issues);
      }
      forall q, s | (q, s) in db'.issues
        ensures HasKey(db'.keys, q, s, db'.issues[(q, s)])
      {
        if (q, s) == (p, r.requestId) {
          assert Backs(db'.keys[i], q, s, db'.issues[(q, s)]);
        } else {
          var j :| 0 <= j < |db.keys| && Backs(db.keys[j], q, s, db.issues[(q, s)]);
          assert db'.keys[j] == db.keys[j];
        }
      }
    }
  }

  lemma AddKeyStock(keys: seq<Key>, issues: map<(Provider, string), Issue>, k: Key)
    requires StockOk(keys, issues)
    requires forall i :: 0 <= i < |keys| ==> keys[i].code != k.code
    requires !k.issued && k.requestId.None? && k.orderId.None?
    ensures StockOk(keys + [k], issues)
  {
    forall p, r | (p, r) in issues
      ensures HasKey(keys + [k], p, r, issues[(p, r)])
    {
      var j :| 0 <= j < |keys| && Backs(keys[j], p, r, issues[(p, r)]);
      assert (keys + [k])[j] == keys[j];
    }
  }

  // ----- what follows in every state -----

  /** Every issue row has exactly one key. */
  lemma OneKeyPerIssue(keys: seq<Key>, issues: map<(Provider, string), Issue>, p: Provider, r: string)
    requires StockOk(keys, issues) && (p, r) in issues
    ensures exists i :: 0 <= i < |keys| && Backs(keys[i], p, r, issues[(p, r)])
    ensures forall i, j ::
      0 <= i < |keys| && 0 <= j < |keys| && keys[i].code == issues[(p, r)].code == keys[j].code
      ==> i == j
  {
    assert HasKey(keys, p, r, issues[(p, r)]);
  }

  /** However often it is retried, an order uses at most one key of each provider. */
  lemma OneKeyPerProvider(db: Db, i: nat, j: nat)
    requires StockOk(db.keys, db.issues) && IssuesOk(db)
    requires i < |db.keys| && j < |db.keys| && db.keys[i].issued && db.keys[j].issued
    requires db.keys[i].provider == db.keys[j].provider && db.keys[i].orderId == db.keys[j].orderId
    ensures i == j
  {
    assert KeyOk(db.keys[i], db.issues) && KeyOk(db.keys[j], db.issues);
    assert db.keys[i].code == db.keys[j].code;
  }

  lemma {:induction false} BijectionSize<A, B>(s: set<A>, t: set<B>, f: map<A, B>)
    requires f.Keys == s
    requires forall a, b :: a in s && b in s && f[a] == f[b] ==> a == b
    requires forall a :: a in s ==> f[a] in t
    requires forall b :: b in t ==> exists a :: a in s && f[a] == b
    ensures |s| == |t|
    decreases s
  {
    if s == {} {
      assert t == {};
    } else {
      var a :| a in s;
      var s', t' := s - {a}, t - {f[a]};
      forall b | b in t'
        ensures exists x :: x in s' && (f - {a})[x] == b
      {
        var x :| x in s && f[x] == b;
        assert x in s' && (f - {a})[x] == b;
      }
      BijectionSize(s', t', f - {a});
    }
  }

  /** There are as many issued keys as issue rows. */
  lemma IssuedKeysMatchIssues(keys: seq<Key>, issues: map<(Provider, string), Issue>)
    requires StockOk(keys, issues)
    ensures |IssuedKeys(keys)| == |issues|
  {
    var s := IssuedKeys(keys);
    assert forall i: nat :: i in s ==> KeyOk(keys[i], issues);
    var f := map i | i in s :: (keys[i].provider, keys[i].requestId.value);
    forall i, j | i in s && j in s && f[i] == f[j]
      ensures i == j
    {
      assert KeyOk(keys[i], issues) && KeyOk(keys[j], issues);
      assert keys[i].code == keys[j].code;
    }
    forall b | b in issues.Keys
      ensures exists i :: i in s && f[i] == b
    {
      assert HasKey(keys, b.0, b.1, issues[b]);
      var i :| 0 <= i < |keys| && Backs(keys[i], b.0, b.1, issues[b]);
      assert i in s && f[i] == b;
    }
    BijectionSize(s, issues.Keys, f);
  }
}
