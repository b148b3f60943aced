/** The provider: idempotent allocation of keys, and what the client makes of the reply. */
module Providers {
  import opened Prelude
  import opened Model

  datatype Request = Request(requestId: string, sku: string, orderId: OrderId)

  datatype ServerResult = Issued(code: string) | Refused | NoStock | BadRequest

  // ----- the server -----

  predicate IsFree(k: Key, p: Provider, sku: string) {
    k.provider == p && k.sku == sku && !k.issued
  }

  predicate HasFree(keys: seq<Key>, p: Provider, sku: string) {
    exists i :: 0 <= i < |keys| && IsFree(keys[i], p, sku)
  }

  /** `ORDER BY created_at, id LIMIT 1`: the free key that was inserted first. */
  function FirstFree(keys: seq<Key>, p: Provider, sku: string): (i: nat)
    requires HasFree(keys, p, sku)
    ensures i < |keys| && IsFree(keys[i], p, sku)
    ensures forall j :: 0 <= j < i ==> !IsFree(keys[j], p, sku)
  {
    if IsFree(keys[0], p, sku) then 0
    else
      assert HasFree(keys[1..], p, sku) by {
        var i :| 0 <= i < |keys| && IsFree(keys[i], p, sku);
        assert keys[1..][i - 1] == keys[i];
      }
      FirstFree(keys[1..], p, sku) + 1
  }

  predicate WellFormed(r: Request) {
    r.requestId != "" && r.sku != "" && r.orderId != ""
  }

  /** A call spends a key exactly in this case: a well-formed first request, not refused, and a free key. */
  predicate Allocates(db: Db, p: Provider, r: Request, refuse: bool) {
    WellFormed(r) && (p, r.requestId) !in db.issues && !refuse && HasFree(db.keys, p, r.sku)
  }

  /** `refuse` is the coin that decides an explicit 5xx; it is tossed only for a new request. */
  function IssueCode(db: Db, now: Time, p: Provider, r: Request, refuse: bool): (Db, ServerResult) {
    if !WellFormed(r) then (db, BadRequest)
    else if (p, r.requestId) in db.issues then (db, Issued(db.issues[(p, r.requestId)].code))
    else if refuse then (db, Refused)
    else if !HasFree(db.keys, p, r.sku) then (db, NoStock)
    else
      var i := FirstFree(db.keys, p, r.sku);
      var k := db.keys[i];
      var done := db.(
        keys := db.keys[i := k.(issued := true, requestId := Some(r.requestId), orderId := Some(r.orderId))],
        issues := db.issues[(p, r.requestId) := Issue(r.sku, r.orderId, k.code, now)]);
      (done, Issued(k.code))
  }

  // ----- the wire -----

  datatype Body = Empty | Malformed | Json(status: string, requestId: string, code: string, reason: string)
  datatype Reply = Reply(statusCode: nat, body: Body)

  /** What the handler writes for a result. */
  function Encode(r: Request, result: ServerResult): Reply {
    match result
    case Issued(code) => Reply(200, Json("ok", r.requestId, code, ""))
    case NoStock => Reply(409, Json("error", "", "", "out_of_stock"))
    case Refused => Reply(503, Json("error", "", "", "provider_unavailable"))
    case BadRequest => Reply(400, Json("error", "", "", "invalid_request"))
  }

  // ----- the client -----

  datatype IssueError = Timeout | Unavailable | OutOfStock | Invalid | Other
  datatype IssueResult = Got(code: string) | Err(error: IssueError)

  /** The case analysis of the client after the reply has been read. */
  function Classify(r: Request, reply: Reply): IssueResult {
    if reply.body.Malformed? then Err(Invalid)
    else
      var body := if reply.body.Empty? then Json("", "", "", "") else reply.body;
      if reply.statusCode == 200 then
        if body.status != "ok" || body.requestId != r.requestId || body.code == "" then Err(Invalid)
        else Got(body.code)
      else if reply.statusCode == 409 then
        if body.reason == "out_of_stock" then Err(OutOfStock) else Err(Invalid)
      else if reply.statusCode >= 500 then Err(Unavailable)
      else Err(Invalid)
  }

  /** A code is accepted exactly from a well-formed 200 that names this request and is not blank. */
  lemma AcceptedCode(r: Request, reply: Reply, code: string)
    ensures Classify(r, reply) == Got(code) <==>
            exists reason :: reply == Reply(200, Json("ok", r.requestId, code, reason)) && code != ""
  {
    if Classify(r, reply) == Got(code) {
      assert reply == Reply(200, Json("ok", r.requestId, code, reply.body.reason));
    }
  }

  /** Which replies mean which error; no reply at all means a timeout or a broken body. */
  lemma ErrorsExactly(r: Request, reply: Reply)
    ensures Classify(r, reply) == Err(OutOfStock) <==>
            reply.statusCode == 409 && reply.body.Json? && reply.body.reason == "out_of_stock"
    ensures Classify(r, reply) == Err(Unavailable) <==> reply.statusCode >= 500 && reply.body != Malformed
    ensures Classify(r, reply) != Err(Timeout) && Classify(r, reply) != Err(Other)
  {
  }

  /** Over the wire every server result arrives as itself, except that a blank code is invalid. */
  lemma RoundTrip(r: Request, result: ServerResult)
    ensures Classify(r, Encode(r, result)) ==
            match result
            case Issued(code) => if code == "" then Err(Invalid) else Got(code)
            case NoStock => Err(OutOfStock)
            case Refused => Err(Unavailable)
            case BadRequest => Err(Invalid)
  {
  }

  /**
   * What can happen to one call. In `NotSent` and `Faulted` the server has not committed (a fault is
   * a refused connection, or a 5xx from a transaction that was rolled back). Otherwise it has, and the
   * reply arrives, is too late, is garbled, breaks off in its body, or the connection is cut before it.
   */
  datatype Transit =
    | Replied(refuse: bool) | ReplyLost(refuse: bool) | Garbled(refuse: bool) | Broken(refuse: bool) | Cut(refuse: bool)
    | NotSent | Faulted

  /** The server commits what the call asks for. */
  predicate Arrives(tr: Transit) {
    !tr.NotSent? && !tr.Faulted?
  }

  /** Outcomes that the client reports as "unavailable" without an answer from the server. */
  predicate Unanswered(tr: Transit) {
    tr.Faulted? || tr.Cut?
  }

  /** One call seen from the client: the tables after it, and what the client is told. */
  function Call(db: Db, now: Time, p: Provider, r: Request, tr: Transit): (Db, IssueResult) {
    match tr
    case Replied(refuse) =>
      var (db', result) := IssueCode(db, now, p, r, refuse);
      (db', Classify(r, Encode(r, result)))
    case ReplyLost(refuse) => (IssueCode(db, now, p, r, refuse).0, Err(Timeout))
    case Garbled(refuse) => (IssueCode(db, now, p, r, refuse).0, Err(Invalid))
    case Broken(refuse) => (IssueCode(db, now, p, r, refuse).0, Err(Other))
    case Cut(refuse) => (IssueCode(db, now, p, r, refuse).0, Err(Unavailable))
    case NotSent => (db, Err(Timeout))
    case Faulted => (db, Err(Unavailable))
  }

  /** What a worker can conclude from what it is told: exactly which outcomes stand behind each answer. */
  lemma ToldExactly(db: Db, now: Time, p: Provider, r: Request, tr: Transit)
    ensures var told := Call(db, now, p, r, tr).1;
      && (told == Err(Timeout) <==> tr.ReplyLost? || tr.NotSent?)
      && (told == Err(Other) <==> tr.Broken?)
      && (told == Err(Unavailable) <==>
            tr.Cut? || tr.Faulted? || (tr.Replied? && IssueCode(db, now, p, r, tr.refuse).1 == Refused))
      && (told == Err(OutOfStock) <==> tr.Replied? && IssueCode(db, now, p, r, tr.refuse).1 == NoStock)
      && (forall code :: told == Got(code) <==>
            code != "" && tr.Replied? && IssueCode(db, now, p, r, tr.refuse).1 == Issued(code))
  {
    if tr.Replied? {
      RoundTrip(r, IssueCode(db, now, p, r, tr.refuse).1);
    }
  }

  /** The tables after a call are those of the server if the request has arrived, and else those before. */
  lemma ArrivedExactly(db: Db, now: Time, p: Provider, r: Request, tr: Transit)
    ensures Call(db, now, p, r, tr).0 ==
            if tr == NotSent || tr == Faulted then db else IssueCode(db, now, p, r, tr.refuse).0
  {
  }
}
