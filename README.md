# Broker adapter order lifecycle, in Dafny

This project models the order-execution adapter of `stock_live_trade/broker_adapter.cpp`.
Callers talk to the adapter through `start`, `stop`, `buy`, `sell` and `closeOrder`. Each of
these only appends a command to a FIFO mailbox; `buy` and `sell` also file a pending order
record under a freshly generated correlation id. A single worker thread runs `Run`: it takes
the head command and drives the broker session. When the mailbox is empty it periodically
runs `updateAccountState`, which reconciles the pending orders with the broker's open-order
report. Order records live in two maps, pending and completed. An order moves from pending to
completed when the broker rejects its submission (state "failed"), when a cancel reaches the
broker ("canceled"), or when a report shows it fully filled ("fulfilled").

Every mutation in `broker_adapter.cpp` except those of `m_started` happens under one mutex. The
model is therefore sequential: a run is any interleaving of caller calls and worker passes, each
atomic. `start` checks and sets `m_started` before taking the lock, and `Run` clears it without the
lock; the model makes each of these part of one atomic step (see "## Left out").

- `Orders.dfy` holds the order record, the commands and the broker's report rows.
- `StringOrder.dfy` holds the ascending key order in which a `std::map<std::string, …>` is
  walked. The first pending order a walk meets is the least key under that order.
- `OrderBook.dfy` holds the two partitions as a value (`Book`) and one function per
  transition: placing an order, the broker's answer to a submission, cancel, and one report
  row. Lemmas prove that each transition keeps the partitions disjoint, moves orders only
  from pending to completed, and touches no other order. It also holds the inner
  reconciliation walk (`FindFirstMatch`) and the invariant tying queued Buy/Sell commands
  to their pending orders.
- `Worker.dfy` holds the adapter's whole state as a value (`AdapterView`), one pass of the
  worker loop (`WorkerStep`), the facts about that pass, and the first-in-first-out property
  over any interleaving of enqueues and takes.
- `Adapter.dfy` holds the `BrokerAdapter` class. Its fields are the source's members, and
  its methods are proved to perform exactly the functions above on those fields.
- `Scenarios.dfy` holds whole lifecycles: a fill in two parts, a buy of 100 AAPL, a
  rejected submission, and a cancel before acknowledgement.
- `Findings.dfy` holds the reconciliation match as written, and the input that breaks the
  partition invariant with it (see Findings).

The broker is passed in as data (`BrokerReplies`):
- the login return code;
- the holdings and balance lists;
- the broker order id for a submission, where `""` is a rejection;
- the open-order report.

The id `gen_uuid` would return is a parameter of `Buy`/`Sell`. The precondition requires it
to be unknown to both partitions.

The model follows the code of `broker_adapter.cpp` in these places, where a reader might expect otherwise:
- Processing Stop ends the worker's run and clears `m_started`. It leaves the status
  (`m_state`) as it was, e.g. still "login".
- A failed login sets the status to "failed" and does not call logout.

It departs from the code in one place, the reconciliation match at line 303. There a report row is
matched only against orders the broker has acknowledged. The reason is under "## Findings".

## Model

| member | source | states |
|---|---|---|
| `Orders.NewOrder` | stock_live_trade/broker_adapter.cpp:62-70 | the record `buy`/`sell` file has state "pending", nothing filled, no broker id, the correlation id as `user_order_id`, direction 1 for both sides, and the requested sid, quantity, price and action |
| `StringOrder.LeastKey` | stock_live_trade/broker_adapter.cpp:302 | the first key an ascending walk of the map meets is a member that no other member sorts before; there is none only for the empty set |
| `OrderBook.LookupInPartition` | stock_live_trade/broker_adapter.cpp:132-145 | with disjoint partitions, a lookup finds the completed record when the id is completed, yields a record filed under the asked id when the id is known, and the default record otherwise |
| `OrderBook.PlaceFresh` | stock_live_trade/broker_adapter.cpp:74 | filing a fresh id keeps the partitions disjoint, leaves completed untouched, adds exactly that id, makes a lookup return the new record, and changes no other order |
| `OrderBook.SubmitOutcome` | stock_live_trade/broker_adapter.cpp:206-235 | a non-empty broker id is recorded and the order stays pending with its state unchanged; an empty one marks it "failed" and moves it to completed; the partitions stay disjoint, moves are one-way, other orders are untouched |
| `OrderBook.CancelOutcome` | stock_live_trade/broker_adapter.cpp:236-257 | a pending order with a non-empty sid and broker id moves to completed as "canceled"; in every other case the book is unchanged; disjointness and one-way moves are kept |
| `OrderBook.ReportOutcome` | stock_live_trade/broker_adapter.cpp:300-320 | a report row changes only its first matching pending order: fill quantity and price are copied; a fill equal to the broker's quantity makes it "fulfilled" in completed; a positive fill makes it "partfilled" in pending; otherwise the state is kept; no match changes nothing |
| `OrderBook.ReportsOutcome` | stock_live_trade/broker_adapter.cpp:300-322 | applying a whole report in order keeps the partitions disjoint, forgets no id, lets no id enter pending, and leaves every completed record as it was |
| `OrderBook.UnacknowledgedUntouched` | stock_live_trade/broker_adapter.cpp:300-303 | reconciliation never changes or moves a pending order the broker has not acknowledged yet |
| `OrderBook.FirstMatchOnly` | stock_live_trade/broker_adapter.cpp:302-303 | when one pending order alone carries the row's broker id, it is the one the walk finds |
| `OrderBook.FindFirstMatch` | stock_live_trade/broker_adapter.cpp:301-303 | the walk returns a pending key whose order matches the row, with no matching key sorting before it, or nothing when no pending order matches |
| `OrderBook.QueuePushOrder` | stock_live_trade/broker_adapter.cpp:104-108 | appending a Buy/Sell for a fresh id, after filing its unacknowledged record, keeps every queued submission tied to its own pending order |
| `OrderBook.QueuePop` | stock_live_trade/broker_adapter.cpp:180-184 | taking the head keeps the remaining queue consistent with any pending map that keeps the other unacknowledged orders |
| `Worker.DispatchPreserves` | stock_live_trade/broker_adapter.cpp:188-262 | processing the head command keeps the adapter invariant, moves orders only forward, and leaves the rest of the queue in order |
| `Worker.ReconcilePreserves` | stock_live_trade/broker_adapter.cpp:285-324 | reconciliation keeps the adapter invariant, moves orders only forward, and leaves the queue, the started flag and the status alone |
| `Worker.StepPreserves` | stock_live_trade/broker_adapter.cpp:172-272 | every pass of the worker loop keeps the partitions disjoint and each queued submission's order pending, and moves orders only from pending to completed |
| `Worker.LoginOnlyByStart` | stock_live_trade/broker_adapter.cpp:189-204 | the status becomes "login" only when the pass processes a Start whose login returned 0 |
| `Worker.NoReconcileWhileLoggedOut` | stock_live_trade/broker_adapter.cpp:287 | with an empty mailbox and a status other than "login", a pass changes nothing |
| `Worker.StopEndsRun` | stock_live_trade/broker_adapter.cpp:259-280 | processing Stop ends the run: the started flag is cleared and nothing else but the queue changes |
| `Worker.TakenInEnqueueOrder` | stock_live_trade/broker_adapter.cpp:180-184 | over any interleaving of enqueues and takes, the commands taken followed by those left equal the initial queue followed by those enqueued, so commands are processed in enqueue order. A Take event is a worker pass (`Worker.StepIsTake`); an Enqueue event abstracts the caller methods, whose contracts append the command with `queue == old(queue) + [c]` |
| `Worker.StepIsTake` | stock_live_trade/broker_adapter.cpp:180-184 | the queue a worker pass leaves is the one a Take event leaves, and the command it takes is the head, so the worker's passes are the Take events of the replay |
| `Adapter.BrokerAdapter.constructor` | stock_live_trade/broker_adapter.cpp:8-14 | a new adapter is not started, has status "idle" with an empty description, an empty queue and empty partitions |
| `Adapter.BrokerAdapter.Start` | stock_live_trade/broker_adapter.cpp:21-35 | when already started nothing changes; otherwise the adapter becomes started and exactly one Start is appended |
| `Adapter.BrokerAdapter.Stop` | stock_live_trade/broker_adapter.cpp:38-46 | exactly one Stop is appended and nothing else changes |
| `Adapter.BrokerAdapter.PlaceOrder` | stock_live_trade/broker_adapter.cpp:62-77 | the new state is the old one with the fresh id's new pending record filed and the command appended at the tail; completed is untouched, the invariant is kept, and a lookup of the id returns the new record |
| `Adapter.BrokerAdapter.Buy` | stock_live_trade/broker_adapter.cpp:50-80 | the returned id is the fresh one; its "open" pending record is filed, one Buy carrying it is appended, completed is untouched, and a lookup returns that record |
| `Adapter.BrokerAdapter.Sell` | stock_live_trade/broker_adapter.cpp:82-112 | as Buy, with action "close" and a Sell command |
| `Adapter.BrokerAdapter.CloseOrder` | stock_live_trade/broker_adapter.cpp:114-123 | exactly one Cancel for the id is appended and nothing else changes |
| `Adapter.BrokerAdapter.GetOrderState` | stock_live_trade/broker_adapter.cpp:132-145 | returns the pending record, else the completed record, else the default record; the result is filed under the asked id when known; no state changes |
| `Adapter.BrokerAdapter.GetPendingOrderNum` | stock_live_trade/broker_adapter.cpp:161-166 | the number of pending orders |
| `Adapter.BrokerAdapter.GetAccountState` | stock_live_trade/broker_adapter.cpp:147-152 | the current status |
| `Adapter.BrokerAdapter.GetHoldingStock` | stock_live_trade/broker_adapter.cpp:125-130 | the stored holdings |
| `Adapter.BrokerAdapter.GetBalance` | stock_live_trade/broker_adapter.cpp:154-159 | the stored balance |
| `Adapter.BrokerAdapter.SetState` | stock_live_trade/broker_adapter.cpp:326-332 | status and description are replaced and nothing else changes |
| `Adapter.BrokerAdapter.CommitSubmission` | stock_live_trade/broker_adapter.cpp:209-219 | the book becomes the submission transition of the old book and nothing else changes |
| `Adapter.BrokerAdapter.CommitCancel` | stock_live_trade/broker_adapter.cpp:237-256 | the book becomes the cancel transition of the old book and nothing else changes |
| `Adapter.BrokerAdapter.Step` | stock_live_trade/broker_adapter.cpp:172-272 | one pass takes the head command if any (returned) and the new state is the worker pass of the old one; the invariant is kept |
| `Adapter.BrokerAdapter.ApplyBrokerOrder` | stock_live_trade/broker_adapter.cpp:300-321 | the book becomes the old book with one report row applied to its first match |
| `Adapter.BrokerAdapter.UpdateAccountState` | stock_live_trade/broker_adapter.cpp:285-324 | the new state is the reconciliation of the old one; the report is used only when some order is pending; the invariant is kept |
| `Scenarios.FillProgression` | stock_live_trade/broker_adapter.cpp:300-320 | an acknowledged order with a growing fill goes pending, then partfilled, then fulfilled, and ends in completed with the full quantity under its correlation id |
| `Scenarios.AaplScenario` | stock_live_trade/broker_adapter.cpp:50-80 | buy of 100 AAPL: pending with nothing filled, still pending once acknowledged, then fulfilled with 100 filled and found only in completed after one report |
| `Scenarios.RejectedSubmissionFails` | stock_live_trade/broker_adapter.cpp:212-219 | an empty broker id completes the order as "failed" at once |
| `Scenarios.CancelBeforeAckIsNoOp` | stock_live_trade/broker_adapter.cpp:248 | a cancel before the broker acknowledges the order changes nothing and the order stays pending |
| `Findings.UnacknowledgedMatchBreaksPartition` | stock_live_trade/broker_adapter.cpp:303 | with the match as written, a report row with an empty id completes an unacknowledged order, and processing its submission re-files it in pending: the id is in both partitions |
| `Findings.MatchesDifferOnlyOnEmptyId` | stock_live_trade/broker_adapter.cpp:303 | for every report row with a non-empty order id, reconciliation as written and the corrected reconciliation give the same book |
| `Findings.AcknowledgedMatchKeepsPartition` | stock_live_trade/broker_adapter.cpp:303 | with the corrected match the same run leaves the order pending only, acknowledged, with the partitions disjoint |

## Left out

- Threads, `ScopedLock`/`m_critical_sec`, `m_event.Signal`/`Wait(100)` and `StartThread` are
  left out. A run is a sequence of atomic method calls, and `Step` may be called only
  while the adapter is started, since the worker thread exists only then.
- `UpdateAccountState` may be called at any point of the interleaving, not only when the
  mailbox is empty. The C++ adapter commits the reconciliation under a lock taken after the
  unlocked broker queries, and callers can enqueue in between.
- `Adapter.BrokerAdapter.Start`: the unlocked check and set of `m_started` (lines 23-27) is one
  atomic step here, so the model does not capture two concurrent `start` calls that both pass the
  check, each append a START and each start a worker thread. Likewise the unlocked clear of
  `m_started` at line 280 is part of the Stop pass.
- `GetTickCount` and the 400 ms reconciliation interval, including tick wrap-around, are
  left out. Whether reconciliation is due is the boolean `reconcileDue` of `Step`.
- The broker transport is outside the model: `login`, `buy`, `sell`, `get_holding_stock`,
  `get_money_left` and `get_all_order` are represented by their results. `cancel_order` and
  `logout` return nothing the adapter uses, so they are not modelled.
- `handlePeriodic`/`try_recv_packet` are left out; their result is discarded.
- `gen_uuid` and MD5 are left out; the fresh id is a parameter.
- The exception handler of `Run` (the "failed" status with the exception text) is left out.
  So is the destructor's `delete`.
- Floating-point prices, fill prices and balances are left out. They are carried as
  integers and never computed with. Holdings are an abstract `Holding` type.
- The headers declaring `order_state` and `command` are not part of this model. The default
  record is assumed to be empty strings and zeros. The `desc` field that the record layout
  comment at line 48 lists is not modelled; nothing in the file writes or reads it. A command is modelled as a tagged variant
  carrying only the fields its kind uses; `Run` reads no other field.
- `OrderBook.ReportOutcome`: is stated for the acknowledged-only match, so a report row with an
  empty order id leaves an unacknowledged pending order alone, where line 303 would update it.
- `Adapter.BrokerAdapter.ApplyBrokerOrder`: applies a row only to the first acknowledged matching
  order; a row with an empty order id never touches an unacknowledged order, unlike line 303.
- `Adapter.BrokerAdapter.UpdateAccountState`: reconciles with the same acknowledged-only match.
  `Findings.MatchesDifferOnlyOnEmptyId` proves that this differs from the code only on rows with
  an empty order id.
- `OrderBook.FindFirstMatch`: matches only acknowledged orders (non-empty broker id), where line
  303 also matches an empty broker id against a report row with an empty order id (see Findings).
  Also, the source walks the pending map in ascending key order and stops at the first match. `FindFirstMatch` instead scans all keys for the least
  matching one. The result is the same order, but the walk's early exit is not modelled.

## Findings

| source | as written | input that shows it | evidently intended | confidence | as-written member | corrected member |
|---|---|---|---|---|---|---|
| stock_live_trade/broker_adapter.cpp:303 | a report row matches any pending order whose `internal_order_id` equals the row's id, including `""` for an order whose submission the broker has not acknowledged | U1 is the only pending order, and `buy` files it while the worker is between releasing the lock after finding the mailbox empty (line 186) and asking for the pending count (line 293), so the count is 1 and the worker has not dequeued U1's Buy. The broker's `get_all_order` (line 294) then reports the row (order id `""`, quant 5, deal_quant 5): U1 moves to completed as "fulfilled". The Buy is then processed and the broker returns B1: `m_pending_order_map[cmd.order_id]` re-creates U1 in pending, so U1 is in both maps | only orders the broker acknowledged (non-empty broker id) are matched, so an id stays in exactly one partition | medium; not executed | `Findings.UnacknowledgedMatchBreaksPartition` | `OrderBook.UnacknowledgedUntouched` |

The rest of the model uses the corrected match (`OrderBook.Matches`). `Worker.StepPreserves`
proves the partition invariant for it.
