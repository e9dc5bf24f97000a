/**
 * The adapter's whole state as one value, and what one pass of the worker
 * loop does to it: take the head command and process it, or, when the
 * mailbox is empty, possibly reconcile with the broker.
 */
module Worker {
  import opened Orders
  import opened OrderBook

  /** The broker's answers during one worker pass (the broker itself is outside the model). */
  datatype BrokerReplies = BrokerReplies(
    loginResult: int,              // login(): 0 is success
    holdings: seq<Holding>,        // get_holding_stock()
    balance: seq<Price>,           // get_money_left()
    submittedId: string,           // buy()/sell(): the broker's id, "" for a rejection
    openOrders: seq<BrokerOrder>   // get_all_order()
  )

  /** Everything the adapter stores. */
  datatype AdapterView = AdapterView(
    started: bool,
    state: string,
    stateDesc: string,
    queue: seq<Command>,
    book: Book,
    holdings: seq<Holding>,
    balance: seq<Price>
  )

  /** The adapter's invariant: the partitions are disjoint and every queued submission has its pending order. */
  ghost predicate ViewValid(v: AdapterView)
  {
    Partitioned(v.book) && QueueConsistent(v.queue, v.book.pending)
  }

  /** Processing one command `c` already taken off the queue. */
  function Dispatch(v: AdapterView, c: Command, replies: BrokerReplies): AdapterView
  {
    match c
    case StartCmd =>
      if replies.loginResult == 0 then
        v.(state := Login, stateDesc := "login success", holdings := replies.holdings, balance := replies.balance)
      else
        v.(state := LoginFailed, stateDesc := "login failed")
    case StopCmd => v.(started := false)
    case BuyCmd(_, _, _, _, id) => v.(book := AfterSubmit(v.book, id, replies.submittedId))
    case SellCmd(_, _, _, _, id) => v.(book := AfterSubmit(v.book, id, replies.submittedId))
    case CancelCmd(id) => v.(book := AfterCancel(v.book, id))
  }

  /**
   * Reconciliation: only while logged in; holdings and balance are replaced,
   * and the open-order report is fetched only when some order is pending.
   */
  ghost function Reconcile(v: AdapterView, holdings: seq<Holding>, balance: seq<Price>, openOrders: seq<BrokerOrder>): AdapterView
  {
    if v.state != Login then v
    else
      var report := if |v.book.pending| > 0 then openOrders else [];
      v.(holdings := holdings, balance := balance, book := ApplyReports(v.book, report))
  }

  /** One pass of the worker loop. */
  ghost function WorkerStep(v: AdapterView, replies: BrokerReplies, reconcileDue: bool): AdapterView
  {
    if v.queue != [] then Dispatch(v.(queue := v.queue[1..]), v.queue[0], replies)
    else if reconcileDue then Reconcile(v, replies.holdings, replies.balance, replies.openOrders)
    else v
  }

  lemma ReconcilePreserves(v: AdapterView, holdings: seq<Holding>, balance: seq<Price>, openOrders: seq<BrokerOrder>)
    requires ViewValid(v)
    ensures var v' := Reconcile(v, holdings, balance, openOrders);
      && ViewValid(v')
      && MovesOnlyForward(v.book, v'.book)
      && v'.queue == v.queue && v'.started == v.started && v'.state == v.state
  {
    if v.state == Login {
      var report := if |v.book.pending| > 0 then openOrders else [];
      var b' := ApplyReports(v.book, report);
      ReportsOutcome(v.book, report);
      forall id | id in v.book.pending && v.book.pending[id].internalOrderId == ""
        ensures id in b'.pending && b'.pending[id] == v.book.pending[id]
      {
        UnacknowledgedUntouched(v.book, report, id);
      }
      QueueConsistentFrame(v.queue, v.book.pending, b'.pending);
    }
  }

  lemma DispatchPreserves(v: AdapterView, replies: BrokerReplies)
    requires ViewValid(v) && v.queue != []
    ensures var v' := Dispatch(v.(queue := v.queue[1..]), v.queue[0], replies);
      && ViewValid(v')
      && MovesOnlyForward(v.book, v'.book)
      && v'.queue == v.queue[1..]
  {
    var c := v.queue[0];
    var b := v.book;
    match c
    case StartCmd => QueuePop(v.queue, b.pending, b.pending);
    case StopCmd => QueuePop(v.queue, b.pending, b.pending);
    case BuyCmd(_, _, _, _, id) =>
      SubmitOutcome(b, id, replies.submittedId);
      QueuePop(v.queue, b.pending, AfterSubmit(b, id, replies.submittedId).pending);
    case SellCmd(_, _, _, _, id) =>
      SubmitOutcome(b, id, replies.submittedId);
      QueuePop(v.queue, b.pending, AfterSubmit(b, id, replies.submittedId).pending);
    case CancelCmd(id) =>
      CancelOutcome(b, id);
      QueuePop(v.queue, b.pending, AfterCancel(b, id).pending);
  }

  /** Every worker pass keeps the invariant and moves orders only from pending to completed. */
  lemma StepPreserves(v: AdapterView, replies: BrokerReplies, reconcileDue: bool)
    requires ViewValid(v)
    ensures ViewValid(WorkerStep(v, replies, reconcileDue))
    ensures MovesOnlyForward(v.book, WorkerStep(v, replies, reconcileDue).book)
  {
    if v.queue != [] {
      DispatchPreserves(v, replies);
    } else if reconcileDue {
      ReconcilePreserves(v, replies.holdings, replies.balance, replies.openOrders);
    }
  }

  /** The status becomes "login" only by processing a Start command whose login succeeded. */
  lemma LoginOnlyByStart(v: AdapterView, replies: BrokerReplies, reconcileDue: bool)
    requires v.state != Login && WorkerStep(v, replies, reconcileDue).state == Login
    ensures v.queue != [] && v.queue[0] == StartCmd && replies.loginResult == 0
  {
  }

  /** Without the "login" status a pass with an empty mailbox changes nothing. */
  lemma NoReconcileWhileLoggedOut(v: AdapterView, replies: BrokerReplies, reconcileDue: bool)
    requires v.queue == [] && v.state != Login
    ensures WorkerStep(v, replies, reconcileDue) == v
  {
  }

  /** Stop ends the run: the adapter is no longer started and nothing else changes. */
  lemma StopEndsRun(v: AdapterView, replies: BrokerReplies, reconcileDue: bool)
    requires v.queue != [] && v.queue[0] == StopCmd
    ensures WorkerStep(v, replies, reconcileDue) == v.(queue := v.queue[1..], started := false)
  {
  }

  // ---------------------------------------------------------------------------
  // First in, first out, over any interleaving of callers and the worker.

  /** A caller appending a command, or the worker taking one. */
  datatype QueueEvent = Enqueue(c: Command) | Take

  /** The commands callers appended, in order. */
  function Enqueued(es: seq<QueueEvent>): seq<Command>
  {
    if es == [] then []
    else Enqueued(es[..|es| - 1]) + (match es[|es| - 1] case Enqueue(c) => [c] case Take => [])
  }

  /** Replays the events from `queue`: the commands the worker took, in order, and the queue left. */
  function Replay(queue: seq<Command>, es: seq<QueueEvent>): (seq<Command>, seq<Command>)
  {
    if es == [] then ([], queue)
    else
      var (taken, left) := Replay(queue, es[..|es| - 1]);
      match es[|es| - 1]
      case Enqueue(c) => (taken, left + [c])
      case Take => if left == [] then (taken, left) else (taken + [left[0]], left[1..])
  }

  /** A worker pass is a Take: it removes exactly the head, and an idle pass leaves the queue empty. */
  lemma StepIsTake(v: AdapterView, replies: BrokerReplies, reconcileDue: bool)
    ensures Replay(v.queue, [Take]).0 == (if v.queue == [] then [] else [v.queue[0]])
    ensures Replay(v.queue, [Take]).1 == WorkerStep(v, replies, reconcileDue).queue
  {
    assert [Take][..0] == [];
  }

  /** The worker takes commands in exactly the order they were in the queue or were enqueued. */
  lemma {:induction false} TakenInEnqueueOrder(queue: seq<Command>, es: seq<QueueEvent>)
    ensures Replay(queue, es).0 + Replay(queue, es).1 == queue + Enqueued(es)
    decreases |es|
  {
    if es != [] {
      TakenInEnqueueOrder(queue, es[..|es| - 1]);
      var (taken, left) := Replay(queue, es[..|es| - 1]);
      match es[|es| - 1]
      case Enqueue(c) =>
        assert taken + (left + [c]) == (taken + left) + [c];
      case Take =>
        if left != [] {
          assert (taken + [left[0]]) + left[1..] == taken + left;
        }
    }
  }
}
