/**
 * The order book: records keyed by correlation id, split into a pending and a
 * completed partition, and the transitions the worker applies to them. Each
 * transition is a function here; the adapter's methods are proved to perform
 * exactly these functions on their fields.
 */
module OrderBook {
  import opened Orders
  import opened StringOrder

  datatype Book = Book(pending: map<string, OrderState>, completed: map<string, OrderState>)

  /** Every record in `m` is filed under its own correlation id. */
  ghost predicate FiledUnderOwnId(m: map<string, OrderState>)
  {
    forall id :: id in m ==> m[id].userOrderId == id
  }

  /** The partition invariant: no id is both pending and completed. */
  ghost predicate Partitioned(b: Book)
  {
    b.pending.Keys !! b.completed.Keys && FiledUnderOwnId(b.pending) && FiledUnderOwnId(b.completed)
  }

  /** The ids the book knows, in either partition. */
  function KnownIds(b: Book): set<string>
  {
    b.pending.Keys + b.completed.Keys
  }

  /**
   * Orders only move forward: no id enters pending, no id is forgotten, and
   * every completed record stays as it was.
   */
  ghost predicate MovesOnlyForward(b: Book, b': Book)
  {
    && b'.pending.Keys <= b.pending.Keys
    && KnownIds(b') == KnownIds(b)
    && forall id :: id in b.completed ==> id in b'.completed && b'.completed[id] == b.completed[id]
  }

  /** Every id other than `id` keeps its partition and its record. */
  ghost predicate SameExcept(b: Book, b': Book, id: string)
  {
    forall j :: j != id ==>
      && (j in b'.pending <==> j in b.pending)
      && (j in b'.completed <==> j in b.completed)
      && Lookup(b', j) == Lookup(b, j)
  }

  /** What a reader sees for `id`: the pending record, else the completed one, else the default. */
  function Lookup(b: Book, id: string): OrderState
  {
    if id in b.pending then b.pending[id]
    else if id in b.completed then b.completed[id]
    else DefaultOrder
  }

  lemma LookupInPartition(b: Book, id: string)
    requires Partitioned(b)
    ensures id in b.completed ==> Lookup(b, id) == b.completed[id]
    ensures id in KnownIds(b) ==> Lookup(b, id).userOrderId == id
    ensures id !in KnownIds(b) ==> Lookup(b, id) == DefaultOrder
  {
  }

  // ---------------------------------------------------------------------------
  // Caller side: filing a new order.

  /** `buy`/`sell`: file `o` in pending under `id`. */
  function Place(b: Book, id: string, o: OrderState): Book
  {
    b.(pending := b.pending[id := o])
  }

  lemma PlaceFresh(b: Book, id: string, o: OrderState)
    requires Partitioned(b) && id !in KnownIds(b) && o.userOrderId == id
    ensures var b' := Place(b, id, o);
      && Partitioned(b')
      && b'.completed == b.completed
      && KnownIds(b') == KnownIds(b) + {id}
      && id in b'.pending && Lookup(b', id) == o
      && SameExcept(b, b', id)
  {
  }

  // ---------------------------------------------------------------------------
  // Worker side: the broker's answer to a submission.

  /**
   * BUY/SELL processing. The record is fetched with the map's index operator,
   * which files a default record when the id is missing; a non-empty broker id
   * is recorded, an empty one fails the order and moves it to completed.
   */
  function AfterSubmit(b: Book, id: string, brokerId: string): Book
  {
    var o := if id in b.pending then b.pending[id] else DefaultOrder;
    if |brokerId| > 0 then b.(pending := b.pending[id := o.(internalOrderId := brokerId)])
    else Book(b.pending - {id}, b.completed[id := o.(state := Failed)])
  }

  lemma SubmitOutcome(b: Book, id: string, brokerId: string)
    requires Partitioned(b) && id in b.pending
    ensures var b' := AfterSubmit(b, id, brokerId);
      && Partitioned(b')
      && MovesOnlyForward(b, b')
      && SameExcept(b, b', id)
      && (brokerId != "" ==> id in b'.pending && Lookup(b', id) == Lookup(b, id).(internalOrderId := brokerId))
      && (brokerId == "" ==> id in b'.completed && Lookup(b', id) == Lookup(b, id).(state := Failed))
  {
  }

  // ---------------------------------------------------------------------------
  // Worker side: cancel.

  /** A cancel reaches the broker only for a pending order with a security id and a broker id. */
  predicate Cancelable(b: Book, id: string)
  {
    id in b.pending && |b.pending[id].sid| > 0 && |b.pending[id].internalOrderId| > 0
  }

  /** CANCEL processing: a cancelable order moves to completed as canceled; otherwise nothing changes. */
  function AfterCancel(b: Book, id: string): Book
  {
    if Cancelable(b, id) then Book(b.pending - {id}, b.completed[id := b.pending[id].(state := Canceled)])
    else b
  }

  lemma CancelOutcome(b: Book, id: string)
    requires Partitioned(b)
    ensures var b' := AfterCancel(b, id);
      && Partitioned(b')
      && MovesOnlyForward(b, b')
      && SameExcept(b, b', id)
      && (Cancelable(b, id) ==> id in b'.completed && Lookup(b', id) == Lookup(b, id).(state := Canceled))
      && (!Cancelable(b, id) ==> b' == b)
  {
  }

  // ---------------------------------------------------------------------------
  // Reconciliation: the broker's open-order report.

  /** A report row applies to an order whose submission the broker acknowledged under the row's id. */
  predicate Matches(o: OrderState, reportId: string)
  {
    o.internalOrderId != "" && o.internalOrderId == reportId
  }

  ghost function MatchingKeys(pending: map<string, OrderState>, reportId: string): set<string>
  {
    set k | k in pending && Matches(pending[k], reportId)
  }

  /** The pending order an ascending walk of the map meets first among those the row matches. */
  ghost function FirstMatch(pending: map<string, OrderState>, reportId: string): Option<string>
  {
    LeastKey(MatchingKeys(pending, reportId))
  }

  /**
   * One report row: copy the fill into the first matching pending order; a
   * full fill completes it (filed under its correlation id), a partial fill
   * marks it partfilled, no fill leaves its state alone.
   */
  ghost function ApplyReport(b: Book, r: BrokerOrder): Book
  {
    match FirstMatch(b.pending, r.orderId)
    case None => b
    case Some(k) => ApplyFill(b, k, r)
  }

  /** The update a report row makes to the pending order filed under `k`. */
  function ApplyFill(b: Book, k: string, r: BrokerOrder): Book
    requires k in b.pending
  {
    var o := b.pending[k].(dealQuant := r.dealQuant, dealPrice := r.dealPrice);
    if r.dealQuant == r.quant then Book(b.pending - {k}, b.completed[o.userOrderId := o.(state := Fulfilled)])
    else if r.dealQuant > 0 then b.(pending := b.pending[k := o.(state := PartFilled)])
    else b.(pending := b.pending[k := o])
  }

  /** The rows of a report, applied in order. */
  ghost function ApplyReports(b: Book, rs: seq<BrokerOrder>): Book
    decreases |rs|
  {
    if rs == [] then b else ApplyReport(ApplyReports(b, rs[..|rs| - 1]), rs[|rs| - 1])
  }

  lemma ReportOutcome(b: Book, r: BrokerOrder)
    requires Partitioned(b)
    ensures var b' := ApplyReport(b, r);
      && Partitioned(b')
      && MovesOnlyForward(b, b')
      && (FirstMatch(b.pending, r.orderId).None? ==> b' == b)
      && (FirstMatch(b.pending, r.orderId).Some? ==>
            var k := FirstMatch(b.pending, r.orderId).value;
            var o := Lookup(b, k).(dealQuant := r.dealQuant, dealPrice := r.dealPrice);
            && SameExcept(b, b', k)
            && (r.dealQuant == r.quant ==> k in b'.completed && Lookup(b', k) == o.(state := Fulfilled))
            && (r.dealQuant != r.quant && r.dealQuant > 0 ==> k in b'.pending && Lookup(b', k) == o.(state := PartFilled))
            && (r.dealQuant != r.quant && r.dealQuant <= 0 ==> k in b'.pending && Lookup(b', k) == o))
  {
  }

  /** When exactly one pending order carries the row's broker id, it is the first match. */
  lemma FirstMatchOnly(pending: map<string, OrderState>, id: string, reportId: string)
    requires id in pending && Matches(pending[id], reportId)
    requires forall j :: j in pending && j != id ==> pending[j].internalOrderId != reportId
    ensures FirstMatch(pending, reportId) == Some(id)
  {
    assert MatchingKeys(pending, reportId) == {id};
    LexLessIrreflexive(id);
    LeastKeyIs(id, {id});
  }

  lemma {:induction false} ReportsOutcome(b: Book, rs: seq<BrokerOrder>)
    requires Partitioned(b)
    ensures Partitioned(ApplyReports(b, rs)) && MovesOnlyForward(b, ApplyReports(b, rs))
    decreases |rs|
  {
    if rs != [] {
      var mid := ApplyReports(b, rs[..|rs| - 1]);
      ReportsOutcome(b, rs[..|rs| - 1]);
      ReportOutcome(mid, rs[|rs| - 1]);
    }
  }

  /** Reconciliation never touches an order whose submission the broker has not yet acknowledged. */
  lemma {:induction false} UnacknowledgedUntouched(b: Book, rs: seq<BrokerOrder>, id: string)
    requires id in b.pending && b.pending[id].internalOrderId == ""
    ensures id in ApplyReports(b, rs).pending && ApplyReports(b, rs).pending[id] == b.pending[id]
    decreases |rs|
  {
    if rs != [] {
      UnacknowledgedUntouched(b, rs[..|rs| - 1], id);
    }
  }

  /**
   * The inner walk of reconciliation: the key of the first pending order,
   * in ascending key order, that the row matches.
   */
  method FindFirstMatch(pending: map<string, OrderState>, reportId: string) returns (k: Option<string>)
    ensures k.Some? ==> k.value in pending && Matches(pending[k.value], reportId)
    ensures k.Some? ==> forall j :: j in pending && Matches(pending[j], reportId) ==> !LexLess(j, k.value)
    ensures k.None? ==> forall j :: j in pending ==> !Matches(pending[j], reportId)
    ensures k == FirstMatch(pending, reportId)
  {
    k := None;
    var rest := pending.Keys;
    while rest != {}
      invariant rest <= pending.Keys
      invariant k.Some? ==> k.value in pending && k.value !in rest && Matches(pending[k.value], reportId)
      invariant k.Some? ==> forall j :: j in pending && j !in rest && Matches(pending[j], reportId) ==> !LexLess(j, k.value)
      invariant k.None? ==> forall j :: j in pending && j !in rest ==> !Matches(pending[j], reportId)
      decreases rest
    {
      var x :| x in rest;
      if Matches(pending[x], reportId) {
        if k.None? {
          LexLessIrreflexive(x);
          k := Some(x);
        } else if LexLess(x, k.value) {
          var old_k := k.value;
          forall j | j in pending && j !in rest - {x} && Matches(pending[j], reportId)
            ensures !LexLess(j, x)
          {
            LexLessIrreflexive(x);
            if j != x && LexLess(j, x) { LexLessTransitive(j, x, old_k); }
          }
          k := Some(x);
        }
      }
      rest := rest - {x};
    }
    if k.Some? {
      LeastKeyIs(k.value, MatchingKeys(pending, reportId));
    }
  }

  // ---------------------------------------------------------------------------
  // The mailbox against the book.

  /**
   * Every queued Buy/Sell refers to its own pending order, still unacknowledged
   * by the broker, and no two queued submissions share an id.
   */
  ghost predicate QueueConsistent(queue: seq<Command>, pending: map<string, OrderState>)
  {
    && (forall i :: 0 <= i < |queue| && queue[i].SubmitsOrder() ==>
          queue[i].orderId in pending && pending[queue[i].orderId].internalOrderId == "")
    && (forall i, j :: 0 <= i < j < |queue| && queue[i].SubmitsOrder() && queue[j].SubmitsOrder() ==>
          queue[i].orderId != queue[j].orderId)
  }

  /** The queue stays consistent with a new pending map that keeps every queued submission's record. */
  lemma QueueConsistentFrame(queue: seq<Command>, p: map<string, OrderState>, p': map<string, OrderState>)
    requires QueueConsistent(queue, p)
    requires forall id :: id in p && p[id].internalOrderId == "" ==> id in p' && p'[id] == p[id]
    ensures QueueConsistent(queue, p')
  {
  }

  lemma QueuePush(queue: seq<Command>, p: map<string, OrderState>, c: Command)
    requires QueueConsistent(queue, p) && !c.SubmitsOrder()
    ensures QueueConsistent(queue + [c], p)
  {
  }

  lemma QueuePushOrder(queue: seq<Command>, p: map<string, OrderState>, c: Command, o: OrderState)
    requires QueueConsistent(queue, p) && c.SubmitsOrder() && c.orderId !in p && o.internalOrderId == ""
    ensures QueueConsistent(queue + [c], p[c.orderId := o])
  {
  }

  /** Taking the head off keeps the rest consistent; the head's own order is no longer protected. */
  lemma QueuePop(queue: seq<Command>, p: map<string, OrderState>, p': map<string, OrderState>)
    requires QueueConsistent(queue, p) && queue != []
    requires forall id :: id in p && p[id].internalOrderId == "" && (queue[0].SubmitsOrder() ==> id != queue[0].orderId) ==>
      id in p' && p'[id] == p[id]
    ensures QueueConsistent(queue[1..], p')
  {
    var q := queue[1..];
    forall i | 0 <= i < |q| && q[i].SubmitsOrder()
      ensures q[i].orderId in p' && p'[q[i].orderId].internalOrderId == ""
    {
      assert q[i] == queue[i + 1];
    }
    forall i, j | 0 <= i < j < |q| && q[i].SubmitsOrder() && q[j].SubmitsOrder()
      ensures q[i].orderId != q[j].orderId
    {
      assert q[i] == queue[i + 1] && q[j] == queue[j + 1];
    }
  }
}
