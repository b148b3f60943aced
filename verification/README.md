# A verified model of the digital store

The store sells product codes. A customer creates an order, a payment service reports payments by webhook, a
queue of delivery jobs is worked off by any number of workers, and two providers hand out codes. Money must not be
lost and no order may be delivered twice, although webhooks arrive twice or too early, workers die or wake up
late, replies get lost and every part of the story is spread over many small transactions. No single
transaction establishes any of the promises; this project proves them of all transactions together.

## How it is modelled

* `Model` holds the tables (`Db`) with their uniqueness constraints built in. `Payments`, `Queue`, `Providers`
  and `Reconcile` describe each committed transaction as a function on the tables.
* `Transactions.Store` is the store in the form the repository has it: a class whose fields are the tables and
  whose methods update them statement by statement, with the loops of the repository's methods. Every method is proved equal to
  the function of its transaction, so everything proved of the functions is true of the class.
* `World` is the system: the tables, a clock, and workers between their calls. A step is a transaction, one provider
  call, the death of a worker, or the passing of time. `Safety` shows what every step keeps; `Guarantees` and the
  modules after it state what follows for every reachable state and every run.
* `Columns` states what the transactions do in columns and values, on damaged tables too, and `Damage` what the report says of
  such tables. `Answers` and `Marks` follow a run from what the providers say to what it leaves in the tables.
* `Fallback`, `Exclusion`, `Lease` and `LeaseTight` are about the rule that a timeout is not a refusal, and about
  the two-minute lease that the rule silently depends on. `TwoKeys` counts the keys of an order, and `Scenarios` shows
  by two concrete runs how it can come to two. `Runs` follows a single worker among all other steps.
* `Commutation` is about payments that come before their order, `Bypass`, `Progress` and `Undeliverable` about the
  queue, `Reports` about the reconciliation report, and `Catalog` about the pages of the catalog.

## What is assumed

* Transactions are serialised and each has its own instant; the clock strictly increases between them. Under READ COMMITTED a
  webhook can miss an order that is not yet committed while the creation misses the webhook
  (`internal/order/repository.go:316-344` and `:384-398`), and the event then stays unprocessed.
* A provider call is one atomic step of the server. Its reply may arrive, come too late, be garbled, break off or be
  cut, and the request may never arrive; but no request is executed after the client has given up on it, no one but
  the workers calls the providers, and a reply that arrives is the one the server wrote.
* `FOR UPDATE SKIP LOCKED` yields a first claimable row; rows that are equal in both sort columns come in any order.
* The random id of a delivery attempt is modelled as the pair of its order and its instant; ids of orders and events are given.
* Currencies have exactly three characters (otherwise `CHAR(3)` would pad or reject them), and texts are compared character by character.
* There is one clock. The code reads the database's and each worker's own; what they may differ by is part of the slack in `Lease`.
* Keys are listed in the order of the provider's query (time of insertion, then id).
* Workers are configured with one retry count and one retry delay.

## Results that need a condition

* **One key per order** is false in general, even with well-behaved workers:
  `Scenarios.OrderlyRunMayCostTwoKeys` is a run in which A refuses, B issues, B's reply is lost and the next run gets a second
  key from A. `TwoKeys.TwoKeysExactly` says exactly when it fails: an order never costs more than two keys, and it
  costs two if and only if at some step a well-formed call for it arrives at a provider that has not issued for it, is not refused and
  finds a free key, while the other provider has issued for it already.
* **A refusal means that nothing was issued** is how the code reads `ErrProviderUnavailable`
  (`internal/delivery/service.go:86-89`), but the client reports every connection error that is no timeout in the same way
  (`internal/delivery/http_provider.go:89-94`). `Fallback.FallbackIsSafeExactly`: as long as no job is taken from a live worker, no
  worker is ever on B while A holds an issue for its request if and only if there is no late fallback, that is, A's last
  attempt is never reported unavailable without an answer when A has issued before or by this very call.
  `Fallback.BAloneExactly` adds what it takes if several workers may hold one job.
  `Scenarios.UnreachableAfterIssueCostsAKey` is a run with a late fallback.
* **The recovery leaves live workers alone** holds exactly if the longest run fits into the lease: `LeaseTight.LeaseIsExact`.
  **No two live workers hold one job** holds exactly if the longest run takes at most one instant more than the lease (two, if a
  mark may take but one): `LeaseTight.SharingIsExact`. A worker that loses its job at its last instant never sees another claim it.
* **Every paid order can be delivered** holds exactly of those for which some provider has a usable code, as long as no key has a
  blank code: `Undeliverable.DeliverableExactly`.
* **Repair gives every paid order a job** is false of orders in `delivering`; the repair skips them, and only the
  administrator's retry helps: `Guarantees.LostJobsAreRestored`.
* **The cursor says whether there is more** fails in exactly one case, an empty SKU on pages of one item:
  `Catalog.CursorLiesExactly`.

## Model

| member | source | states |
|---|---|---|
| Guarantees.Provenance | internal/providermock/server.go:205-380 | In every reachable state a delivered order has a non-blank code; it is the code on record for its own provider and request id, and of exactly one key, which is issued to this order and has this order's SKU. |
| Guarantees.NoSharedCode | internal/delivery/repository.go:176-322 | No two orders ever hold the same code. |
| Guarantees.NoKeyForUnpaid | internal/providermock/server.go:312-357 | In every reachable state every issued key is bound to an existing order that is paid and has the SKU of the key. |
| Guarantees.IssueBelongs | internal/order/repository.go:648 | An issue on record under an order's request id was made for that order and its SKU. |
| Guarantees.KeyConservation | internal/providermock/server.go:282-364 | There are as many issued keys as issues on record, each issue has its key, and an order uses at most one key of each provider however often it is retried. |
| Guarantees.SameCodeForever | internal/tests/integration_test.go:470-654 | However many other steps follow an issue, a repeat of its request gets the same code and changes nothing. |
| Guarantees.StatusCorrespondence | internal/delivery/repository.go:109-156 | In every reachable state the status of an order determines whether it has a job and which status the job has; a job is locked exactly while it is in processing; paid_at and delivered_at are set exactly when the status says so. Marks by workers that lost their job are included. |
| Guarantees.HistoryIsPath | internal/model/order.go:11-27 | Along every run the status of every order is born as created, paid or payment_failed and then moves only along the edges of the life cycle. |
| Guarantees.NothingIsRevoked | internal/delivery/repository.go:212-265 | Between any two points of a run: final statuses are absorbing, price, SKU, paid_at, delivered_at, code and provider never change once set, and no event, ledger entry, key binding or issue is lost. |
| Guarantees.FirstMatchDecides | internal/order/repository.go:494-540 | For every order in every reachable state: the first stored event whose amount and currency match decides the payment, whenever the order was created; created means there is none, payment_failed that it was a failure, paid_at that it was a payment. |
| Guarantees.NoEventIsForgotten | internal/order/repository.go:377-492 | Every event id is stored once, and an event is processed exactly when its order exists, whether it came before or after it. |
| Guarantees.PaidIsBacked | internal/order/repository.go:542-685 | Behind every order with paid_at stands a processed paid event for its amount and currency. |
| Guarantees.ReplayChangesNothing | internal/order/repository.go:269-302 | A webhook whose event id was seen leaves all tables as they are, in any state and even if its other fields differ. |
| Guarantees.PaidOnce | internal/tests/integration_test.go:32-263 | However many webhooks, retries and repairs follow, a paid order keeps its paid_at, its one job row with its request id, and exactly one payment entry. |
| Guarantees.LedgerConservation | internal/migration/003_delivery_ledger_unique.sql:1-3 | In every reachable state the payment entries sum up to the amounts of the paid orders, with exactly one entry per paid order and none for others, and exactly one delivery entry per delivered order and none for others. |
| Guarantees.RepairFindsNothing | internal/reconciliation/service.go:711-803 | On every reachable state the repair changes nothing and reports (0, 0). |
| Guarantees.LostJobsAreRestored | internal/tests/integration_test.go:1587-1677 | After the loss of any set of job rows the repair gives a paid, undelivered order a claimable job with the same request id exactly when the order is not in delivering, and spares all other jobs; the administrator's retry does it for every such order. |
| Guarantees.CreateTerms | internal/order/repository.go:53-171 | An order is created exactly when the product is active and the id is new; it takes the price and currency of that moment, exactly one order is added, and otherwise nothing changes. |
| Guarantees.FurtherPaymentRequeues | internal/order/repository.go:582-679 | In every reachable state a further matching payment of a paid order adds no ledger entry; it makes a failed or out-of-stock job claimable at once under the same request id, and leaves all other jobs and orders as they are. |
| Guarantees.DeliveryStands | internal/delivery/repository.go:212-256 | Once an order is delivered, nothing that follows, late marks of other runs included, changes its row, its job row or its one payment and one delivery entry. |
| Guarantees.DelayIsHeld | internal/delivery/repository.go:356-438 | A failed job can be claimed again from the end of its delay on and not before, and its order shows the kind of failure. |
| Guarantees.RetryByStatus | internal/reconciliation/service.go:452-709 | In every reachable state the status of an order alone decides what the administrator's retry answers; a retried job is claimable at once, and in all other cases nothing changes. |
| Outcome.ApplyDecides | internal/order/repository.go:494-540 | One event moves the payment outcome of its own order only: a matching event decides an undecided outcome, anything else leaves it. |
| Outcome.ApplyAllDecides | internal/order/repository.go:446-489 | Applying pending events one by one, with the status read anew before each, yields the status of the first match among them and marks exactly those events processed. |
| Outcome.ProcessPaymentDecides | internal/order/repository.go:243-375 | Every webhook keeps "the first match decides" and "processed exactly if the order exists" for all orders. |
| Outcome.CreateDecides | internal/order/repository.go:53-171 | So does the creation of an order, with the events that came before it. |
| Columns.FirstEventDecides | internal/order/repository.go:551-679 | A new event with the amount and currency of a created order pays it, with a pending job due at once under its request id and one entry of that amount, or ends it with payment_failed and nothing else. |
| Columns.PaymentExactly | internal/order/repository.go:551-679 | On any tables: what a new matching payment does by the status of the order, its job and its entries; a missing job is made and a missing entry is added, unless the order is delivered or ended. |
| Columns.MismatchChangesNothing | internal/order/repository.go:504-515 | On any tables an event with another amount or another currency changes no order, job or ledger entry. |
| Columns.LateFailureChangesNothing | internal/order/repository.go:687-729 | On any tables a report of failure for an order that is no longer created changes no order, job or ledger entry. |
| Columns.EarlyEventWaits | internal/order/repository.go:316-344 | An event for an order that does not exist is stored, unprocessed, and changes nothing else. |
| Payments.SortKeepsArrivalOrder | internal/order/repository.go:384-398 | Sorting by arrival and event id returns the order of arrival. |
| Payments.SortSorts | internal/order/repository.go:395 | The pending rows come by arrival and then by event id, and they are the rows that are pending. |
| Payments.PendingAppend | internal/order/repository.go:384-398 | A new unprocessed event comes last among the pending events of its order, and is in no other order's list. |
| Payments.FirstMatchStands | internal/order/repository.go:542-607 | No later event changes an outcome that is decided. |
| Commutation.Swap | internal/order/repository.go:316-344 | One webhook and the creation of one order, the webhook's own or another, can change places: orders, jobs, ledger entries and processed flags are the same up to timestamps. |
| Commutation.PositionDoesNotMatter | internal/tests/integration_test.go:372-468 | For any sequence of payment events, from any reachable state, every position at which the order is created leads to the same tables up to timestamps. |
| Status.ApplyPaidConsistent | internal/order/repository.go:542-685 | A paid event keeps orders, jobs and ledger in agreement. |
| Status.MarkDeliveredConsistent | internal/delivery/repository.go:176-322 | So does a delivery mark of any worker, with one delivery entry. |
| Status.MarkFailureConsistent | internal/delivery/repository.go:356-438 | So does a failure mark of any worker. |
| Status.RecoverConsistent | internal/delivery/repository.go:441-481 | So does the recovery of stale jobs. |
| Status.RetryConsistent | internal/reconciliation/service.go:599-689 | So does the administrator's retry. |
| Status.RepairConsistent | internal/reconciliation/service.go:711-803 | The repair leaves tables in agreement exactly as they are. |
| Safety.NextSafe | internal/delivery/worker.go:31-118 | The invariant over tables, providers and workers is kept by every step, with any number of workers, deaths, late wake-ups and lost replies. |
| Safety.AcceptedIsSourced | internal/delivery/http_provider.go:121-133 | A code that a worker accepts is the code on record for its request. |
| Safety.RunSafe | internal/delivery/worker.go:31-118 | Every run keeps the invariant and revokes nothing. |
| Stock.IssueConserves | internal/providermock/server.go:282-364 | Issuing neither creates nor destroys a key, unbinds none, and touches no other table. |
| Stock.IssueSpendsOneKey | internal/providermock/server.go:275-364 | A call that changes anything is the first for its request; it binds exactly the oldest free key of the SKU and records its code. |
| Stock.IssueIsRecorded | internal/providermock/server.go:220-273 | An answer with a code is the code on record; a refusal or "out of stock" means that nothing is on record and nothing changed. |
| Columns.AnswersExactly | internal/providermock/server.go:235-310 | For every request and any tables: which of code, refusal, "out of stock" and bad request a provider answers, by the request, what is on record, the coin and the free keys. |
| Stock.IssueStock | internal/migration/001_init.sql:148-160 | Issued keys and issues on record stay in correspondence, with equal code, SKU, request and order. |
| Stock.IssuedKeysMatchIssues | internal/providermock/server.go:308-364 | There are exactly as many issued keys as issues. |
| Stock.OneKeyPerIssue | internal/migration/001_init.sql:101-119 | Every issue has a key, and only one. |
| Stock.OneKeyPerProvider | internal/order/repository.go:648 | Two keys of one provider are never issued to the same order. |
| Providers.FirstFree | internal/providermock/server.go:282-306 | The key taken is free, of the right provider and SKU, and none before it is. |
| Providers.AcceptedCode | internal/delivery/http_provider.go:121-133 | The client accepts a code from exactly those replies that are a well-formed 200 with status ok, this request id and a code that is not blank. |
| Providers.ErrorsExactly | internal/delivery/http_provider.go:135-166 | Exactly which replies mean "out of stock" and "unavailable"; no reply at all means a timeout. |
| Providers.ToldExactly | internal/delivery/http_provider.go:78-166 | Exactly which outcomes of a call stand behind each answer the worker gets: a timeout says nothing about the server, and only a refusal, "out of stock" and a code are the server's own. |
| Providers.RoundTrip | internal/providermock/server.go:130-201 | What the server decided is what the client understands, for every result; a blank code counts as invalid. |
| Retry.IssueWithRetry | internal/delivery/service.go:149-207 | For any replies the loop goes on after a timeout, a refusal or a broken reply and after nothing else: it returns the first other reply among the first n, otherwise the n-th, after exactly as many calls. |
| Retry.TotalBackoffClosedForm | internal/delivery/service.go:209-218 | All waits of a chain of n attempts take 0, 100, 400 + 900(n-3) ms. |
| Runs.StopAt | internal/delivery/service.go:156-191 | Where a chain stops: at the first code, "out of stock" or invalid reply, or at the last attempt, with that reply as its outcome. |
| Runs.RunDecides | internal/delivery/service.go:45-147 | The replies that two chains consume, told one by one, lead to exactly the mark that the outcomes of the chains call for, within 2n calls, and within n if the first does not fall back. |
| Runs.PathDecides | internal/delivery/service.go:45-147 | Conversely, whatever a run is told up to its decision, it is what two chains consume, and it decides as they do. |
| Runs.WorldFollows | internal/delivery/service.go:45-147 | In any run, with any other steps in between, the phase of a worker that has not marked or died depends only on what it has been told. |
| Runs.CallsAreBounded | internal/delivery/service.go:156-191 | In any run whatever, a worker makes no more calls before its mark than its phase allows. |
| Runs.MarkIsDecided | internal/delivery/service.go:45-147 | In any run, with any other steps in between: from its claim to its mark a worker makes at most 2n calls, and when it is about to mark, it has been told what two chains of calls consume, and its mark is the one they call for. |
| Answers.AnswersAreLawful | internal/delivery/service.go:175-191 | In any run, among any other steps: every answer of a provider but its last is a timeout, a refusal or a broken reply, there are at most n, and B is asked only after A has last said "out of stock", or "unavailable" for the n-th time. |
| Answers.AnswersDecide | internal/delivery/service.go:57-147 | When a worker is about to mark, its last answers decide: a code of A; or, after a refusal or "out of stock" of A, a code of B, or giving up, for want of stock exactly if both were out of stock; after any other answer of A, giving up without asking B. |
| Marks.MarkRecords | internal/delivery/service.go:220-303 | The mark of a worker that holds its job leaves exactly its decision: order, job, provider, code, time and delivery entry of a delivery; or out_of_stock or delivery_failed, and a job that can be claimed from retryDelay after the mark on and not before. |
| Marks.MarkTakesEffectExactly | internal/delivery/repository.go:223-253 | In a reachable state a mark changes anything exactly if its job is in processing, for whichever worker. |
| Marks.AnswersBecomeMarks | internal/delivery/service.go:45-147 | In any run, among any other steps, from the claim through to the tables: what the providers last told a worker that holds its job is what its mark records, for every combination of answers. |
| Marks.NoStockAtA | internal/tests/integration_test.go:839-968 | If A has neither an issue nor a free key for an order, one claim, one call at each provider and the mark deliver the code of B; if B has none either, they leave the order out_of_stock and its job due after the delay. |
| Marks.RefusalsLeadToB | internal/tests/integration_test.go:656-837 | If A refuses every attempt it has issued nothing, and the next call asks B. |
| Marks.FinishAtB | internal/tests/integration_test.go:656-837 | A run that has gone on to B delivers the code of B with its next call and its mark, if B has one. |
| Exclusion.NextSolo | internal/delivery/worker.go:69-75 | As long as the recovery takes no job from a live worker, every live worker holds its job and no two hold the same, after any step. |
| Exclusion.MarkKeepsOthers | internal/delivery/repository.go:243-280 | A mark touches the job of its own worker only. |
| Fallback.FallbackMeansNoIssue | internal/delivery/service.go:73-89 | A worker that leaves A for B otherwise than by a late fallback leaves A without an issue for the request. |
| Fallback.LateFallbackExactly | internal/delivery/http_provider.go:78-95 | One call makes a run go on to B although A holds an issue exactly if it is the last attempt, is reported unavailable without an answer, and A had issued before or has just spent a key on it: first for its request, well formed, not refused, and with a free key. |
| Fallback.FallbackIsSafeExactly | internal/delivery/service.go:73-89 | In any run in which the recovery takes no job from a live worker: no worker is ever on B while A holds an issue for its request, if and only if no step is a late fallback. |
| Fallback.BAloneExactly | internal/delivery/service.go:73-107 | In any run from any state that keeps the invariants, with any number of workers on one job: no worker is ever on B while A holds an issue for its request, if and only if no step is a late fallback and no worker spends a key at A while another is on B for the same request. |
| Fallback.NoFallbackAfterIssue | internal/delivery/service.go:45-147 | In every run without a late fallback in which the recovery takes no job from a live worker: while B is asked, A holds no issue for the request; an order delivered by B has no issue at A; where both issued, B issued first and its issue was never recorded. |
| Lease.LeaseBudgetClosedForm | internal/delivery/service.go:149-218 | The longest run takes 2(nT + B(n)) plus slack, with B(n) in closed form. |
| Lease.PhaseTime | internal/delivery/service.go:45-147 | Each call and wait of a run stays within its share of the longest run. |
| Lease.LeaseExclusion | internal/delivery/repository.go:441-481 | If 2(nT + B(n)) plus slack is at most 120 000 ms, with B(n) in closed form, then in every run in which workers keep to their times the recovery takes no job from a live worker and no two live workers hold the same job. |
| Lease.LeaseMakesOrderly | internal/delivery/worker.go:69-75 | Under the same condition such runs without a late fallback satisfy what the fallback needs, so the lease is what makes it safe. |
| LeaseTight.LongRunLosesJob | internal/delivery/worker.go:69-75 | For any longer budget there is a run, with every worker on time, in which the recovery takes a job from a live worker. |
| LeaseTight.LeaseIsExact | internal/delivery/worker.go:69-75 | So the recovery leaves live workers alone in all timely runs if and only if the longest run takes at most 120 000 ms. |
| LeaseTight.NoSharing | internal/delivery/repository.go:441-481 | If the longest run takes at most one instant more than the lease (two, if a mark may take but one), no two live workers hold the same job at the end of any timely run. |
| LeaseTight.SharingIsExact | internal/delivery/repository.go:441-481 | And only then: for any longer budget there is a run, with every worker on time, at whose end two live workers hold the same job. |
| TwoKeys.KeysOfCount | internal/migration/001_init.sql:101-119 | An order has cost exactly as many keys as there are providers that have issued for it. |
| TwoKeys.StepDoubles | internal/providermock/server.go:220-306 | One step of the system gives a request its second issue exactly if it is a call that spends a key at one provider while the other has issued. |
| TwoKeys.TwoKeysExactly | internal/delivery/service.go:57-107 | Over any run an order costs at most two keys, and two if and only if some step of the run is of that kind. |
| Bypass.StepCountsDown | internal/delivery/repository.go:64-83 | As long as a due job is neither claimed nor put back, the number of jobs ahead of it never grows, and every claim of another job takes one away from it. |
| Bypass.PlaceChangesExactly | internal/order/repository.go:609-656 | A step changes the row of a due job exactly if it claims the job, or puts it back: an administrator's retry, or a new matching payment that finds it failed or out of stock. Replays, other amounts and payments of a pending job leave it in its place. |
| Bypass.BoundedBypass | internal/delivery/repository.go:64-83 | Over every run a due job that is not put back before its claim is bypassed at most as often as there were queued jobs ahead of it, however other jobs fail, are recovered or are created. |
| Columns.ClaimableByStatus | internal/delivery/repository.go:64-77 | In reachable states a job can be claimed exactly if its order is paid, delivery_failed or out_of_stock and its time has come. |
| Columns.ClaimableExactly | internal/delivery/repository.go:64-77 | On any tables: a job can be claimed exactly if its own status and that of its order allow it and it is due or has no time. |
| Columns.ClaimOrder | internal/delivery/repository.go:78-80 | A job is claimed only if every other claimable job has a later time, or the same time and no earlier creation; jobs without a time come first. |
| Columns.RecoveryExactly | internal/delivery/repository.go:445-470 | The recovery takes exactly the jobs in processing that were locked more than 120 000 ms ago: they fail and are due at once, their orders are delivery_failed, and every other job and order stays as it is. |
| Columns.RecoveryOfOrders | internal/delivery/repository.go:462-469 | On any tables: the recovery fails exactly the delivering orders of jobs that were locked more than 120 000 ms ago. |
| Columns.OldestReleasedFirst | internal/delivery/repository.go:455 | Of two jobs released by one recovery, the younger is not claimed as long as the older is still waiting, whatever steps come in between. |
| Columns.DeliveryMarkExactly | internal/delivery/repository.go:212-280 | On any tables: a delivery mark is made exactly of a job in processing whose order is delivering, a repeated one is accepted, and otherwise nothing changes. |
| Columns.FailureMarkExactly | internal/delivery/repository.go:377-422 | On any tables: a failure mark is made exactly of a job in processing; its order follows if it is delivering; otherwise nothing changes. |
| Progress.DeliverWaiting | internal/delivery/worker.go:93-118 | A due, deliverable order is delivered by the claims, calls and marks of one worker that is free now, in at most three steps per job ahead of it and n + 3 more. |
| Progress.GetWaiting | internal/delivery/repository.go:375-394 | Every paid, undelivered, deliverable order becomes due by waiting and at most one recovery after it, at the end of its delay or of the lease of whoever holds it, and is still deliverable then. |
| Progress.NoJobIsLost | internal/tests/integration_test.go:839-968 | From every reachable state every paid, undelivered order for which some provider has a usable code is delivered by a finite schedule of waiting, recovery and the claims, calls and marks of one free worker; no key is added, no order retried and no worker dies. Beyond its remaining delay or lease it takes at most three steps per job and n + 1 more. |
| Progress.SomeWorkerDelivers | internal/delivery/worker.go:93-118 | And some worker is always free, so from every reachable state such an order has such a schedule. |
| Undeliverable.NoKeyNoDelivery | internal/providermock/server.go:302-310 | An order for which no provider has issued or has a free key is delivered by no run in which no key is added, whatever else happens. |
| Undeliverable.DeliverableExactly | internal/delivery/worker.go:93-118 | Where no key has a blank code, such a schedule exists for a paid, undelivered order if and only if some provider has a usable code for it. |
| Reconcile.RepairIdempotent | internal/reconciliation/service.go:711-803 | Whatever the tables hold, a second repair changes nothing and reports (0, 0). |
| Reconcile.NothingToRepair | internal/reconciliation/service.go:725-790 | A repair leaves the tables alone exactly if no order lacks a job or a time for its next attempt. |
| Columns.RetrySparesRunning | internal/reconciliation/service.go:498-600 | Whatever the tables hold, the administrator's retry touches no delivered order, no job that is delivered or in processing and no other order, and queues paid orders only. |
| Columns.RetryQueues | internal/reconciliation/service.go:534-689 | On any tables: the retry makes a missing job, or makes the job pending and due at once, and turns exactly a claimable order, or one without a job, to paid. |
| Columns.RepairExactly | internal/reconciliation/service.go:725-790 | On any tables: which orders the repair makes a job for, and which jobs it gives a time; it changes nothing else. |
| Columns.LostTimesAreRestored | internal/reconciliation/service.go:761-790 | After the loss of any set of next attempt times the repair gives exactly the failed and out-of-stock jobs among them a time again, and reports their number. |
| Columns.LostJobsAreCounted | internal/reconciliation/service.go:725-759 | After the loss of any set of job rows the repair reports as created exactly those of orders that are paid, delivery_failed or out_of_stock. |
| Reports.FindIssues | internal/reconciliation/service.go:87-450 | Each query returns one row for each flagged order and no other, by creation and then by id, and each row shows its order, its job if there is one, and the numbers of its entries. |
| Reports.BuildReport | internal/reconciliation/service.go:34-85 | The report consists of the four lists, each on the tables as they were at its own query; the summary holds their lengths and the sum of these. |
| Reports.ConsistentFlags | internal/reconciliation/service.go:116-128 | Where orders, jobs and ledger agree, the first query flags exactly the orders that are paid, delivering, out_of_stock or delivery_failed, and the other three flag nothing. |
| Reports.ReportIsExact | internal/reconciliation/service.go:34-85 | On reachable states, whatever happens between the queries, the report lists exactly the orders that are owed, each once, its other three lists are empty, and the total is the number of the orders that are owed. |
| Damage.FaultIsReported | internal/reconciliation/service.go:87-450 | From any reachable state, after one fault in one order (a lost job row, paid_at or entry, an extra entry, a wrong status): which of the four lists name that order, by its status; the other orders are listed as they were. |
| Damage.LossIsReported | internal/reconciliation/service.go:116-128 | From any reachable state, after the loss of any set of job rows: the first list names exactly the orders that are owed and the delivered orders whose job row is lost, and the other lists are empty. |
| Damage.UnseenFaults | internal/reconciliation/service.go:34-85 | Exactly which of these faults leave no trace in the report. |
| Books.BooksBalance | internal/order/repository.go:657-679 | Sums and numbers of ledger entries equal sums and numbers over orders. |
| Books.TallyIsSum | internal/migration/001_init.sql:132-134 | A ledger with one entry for each order of a set and none for others adds up to the sum over the set. |
| Stamps.TimesAreOfTheirSteps | internal/order/repository.go:551-607 | paid_at and delivered_at, when they get set, get the time of the step that set them. |
| Stamps.EventTimes | internal/order/repository.go:731-753 | Events are received, and processed, at the times of the steps that do it. |
| Stamps.AttemptsCountClaims | internal/delivery/repository.go:109-172 | Over every run the attempts column grows by exactly the number of claims of that job. |
| Catalog.List | internal/catalog/repository.go:20-118 | A page holds the first active SKUs after the cursor, in order, at most the clamped limit; its cursor is its last SKU if there is more and empty if not. |
| Catalog.Clamp | internal/catalog/repository.go:25-31 | A limit from 1 to 100 is kept, a smaller one becomes 50, a larger one 100. |
| Catalog.CursorLiesExactly | internal/catalog/repository.go:107-115 | The cursor reads "no more" although there is more exactly if the page is one item long and that item is an empty SKU. |
| Catalog.WalkAscends | internal/catalog/repository.go:50-64 | Whatever happens to the catalog between pages, and whatever limit each request asks for, SKUs strictly increase along a walk. |
| Catalog.ExactlyOnce | internal/catalog/repository.go:20-118 | On a completed walk over a changing catalog, with any limit for each page, every product that was active throughout appears at exactly one place, unless the walk was cut short by the empty SKU; then only that one does. |
| Catalog.WalkAll | internal/catalog/repository.go:20-118 | On a fixed catalog following the cursors ends, with any limit for each page, with exactly the active products in SKU order, again but for the empty SKU. |
| Scenarios.UnreachableAfterIssueCostsAKey | internal/delivery/http_provider.go:78-95 | A run in which A issues, its reply is lost, A is then unreachable, and B delivers: both providers spent a key. |
| Scenarios.OrderlyRunMayCostTwoKeys | internal/delivery/service.go:57-61 | An orderly run that costs two keys: A refuses, B issues unheard, and the next run gets a second key from A. |
| Transactions.Store.Create | internal/order/repository.go:53-171 | The method, statement by statement, has the effect and the result of the transaction. |
| Transactions.Store.ProcessPayment | internal/order/repository.go:243-375 | Likewise, including unknown orders and repeated event ids. |
| Transactions.Store.ApplyPendingPayments | internal/order/repository.go:377-492 | The loop over the pending events, reading the status anew before each, applies them all in their order. |
| Transactions.Store.ApplyPaymentToOrder | internal/order/repository.go:494-540 | An event that does not match is only marked; the others are applied by status. |
| Transactions.Store.ApplyPaidEvent | internal/order/repository.go:542-685 | Order, job, ledger and event after a paid event, for each status of the order. |
| Transactions.Store.ApplyFailedEvent | internal/order/repository.go:687-729 | A failed event ends an order that is still created and does nothing else. |
| Transactions.Store.MarkPaymentProcessed | internal/order/repository.go:731-753 | Marks the rows of one event id and no other. |
| Transactions.Store.FindNextJob | internal/delivery/repository.go:58-87 | Finds a claimable job that no other claimable one precedes by next_attempt_at, missing times first, and then by created_at; or there is none. |
| Transactions.Store.ClaimNextJob | internal/delivery/repository.go:36-174 | Claims such a job, counts the attempt in the row and in the job handed out, or changes nothing if none is claimable. |
| Transactions.Store.MarkDelivered | internal/delivery/repository.go:176-322 | The delivery mark with all its ways to end. |
| Transactions.Store.MarkRecoverableFailure | internal/delivery/repository.go:356-438 | The failure marks, both kinds. |
| Transactions.Store.RecoverStaleJobs | internal/delivery/repository.go:441-481 | Releases exactly the stale jobs and their orders, and returns the number of orders. |
| Transactions.Store.Process | internal/delivery/service.go:45-147 | For any replies, with the tables as they are: which calls are made to which provider, that B is asked exactly if the last answer of A is a refusal or "out of stock", and for every combination of last answers the one mark that is made. |
| Transactions.Store.RetryDelivery | internal/reconciliation/service.go:452-709 | The administrator's retry with all its answers. |
| Transactions.Store.Repair | internal/reconciliation/service.go:711-803 | The two statements of the repair and the numbers of rows they affect. |
| Transactions.Store.FindFreeKey | internal/providermock/server.go:282-306 | Finds the oldest free key of a provider for a SKU exactly if there is one. |
| Transactions.Store.IssueCode | internal/providermock/server.go:205-380 | The allocation of a key, statement by statement. |

## Left out

- Races below the level of transactions: READ COMMITTED snapshots, lock waits, deadlocks, advisory locks, and commits whose outcome the client does not learn.
- HTTP routing, JSON decoding and handlers (`internal/httpapi`), configuration and wiring. Their checks (status is paid or failed, amount is not negative) are the types of the model.
- Sockets and `net/http` errors: a call is modelled from its outcome on, which is one of seven.
- Random failure and timeout rates: any coin may fall any way at any time.
- Cancellation of a worker: a cancelled run cannot mark its job any more, so it is the `Crash` step.
- `last_error`, `error`, `payload`, `updated_at`, `issued_at`, product display fields and the `inventory` table, which orders never change.
- The status column of `provider_issues`: only `issued` is ever written by the code that is modelled.
- `refund` entries: no code writes them.
- Deliveries that collide in `request_id`: it is derived from the order id, so the unique constraint cannot fail (`Model.RequestIdInjective`).
- Tickers and liveness of `Run`: recovery happens only on an idle iteration, so progress is stated as reachability, not as a promise about timers.
- Transactions.Store.Process: is given the replies as parameters and the tables stand still until its mark; among other steps the same is stated by `Marks.AnswersBecomeMarks`.
- Transactions.Store.ClaimNextJob: which of several jobs with equal times is claimed is left open, as the query leaves it.
- LeaseTight.LeaseIsExact: leaves aside a client timeout of zero.
- LeaseTight.SharingIsExact: leaves aside a client timeout of zero, and runs with a single attempt per provider whose calls and mark may take but one instant each.
- Bypass.BoundedBypass: says nothing of a job that is put back to the end of the queue before it is claimed, by an administrator's retry or by a new matching payment of a failed job.
- Progress.NoJobIsLost: demands the schedule to be possible, not that the timers or the providers' coins produce it.
- Undeliverable.DeliverableExactly: with blank codes a key ahead of a usable one may first be spent on another order, so there only the two halves `Progress.NoJobIsLost` and `Undeliverable.NoKeyNoDelivery` are stated.
