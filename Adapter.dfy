/**
 * The broker adapter object. Callers enqueue commands (Start, Stop, Buy, Sell,
 * CloseOrder) and read snapshots; the worker thread runs Step, one pass of
 * its loop at a time. Every mutation except those of `m_started` happens under
 * one lock in broker_adapter.cpp, so a run is a sequence of these method calls;
 * `Start` makes the unlocked check and set of `m_started` one atomic step.
 */
module Adapter {
  import opened Orders
  import opened OrderBook
  import opened Worker

  class BrokerAdapter {
    var started: bool
    var state: string
    var stateDesc: string
    var queue: seq<Command>
    var pending: map<string, OrderState>
    var completed: map<string, OrderState>
    var holdings: seq<Holding>
    var balance: seq<Price>

    /** The two partitions as one value. */
    ghost function Partitions(): Book
      reads this
    {
      Book(pending, completed)
    }

    /** Everything the adapter stores, as one value. */
    ghost function Snapshot(): AdapterView
      reads this
    {
      AdapterView(started, state, stateDesc, queue, Partitions(), holdings, balance)
    }

    ghost predicate Valid()
      reads this
    {
      ViewValid(Snapshot())
    }

    constructor ()
      ensures Valid()
      ensures Snapshot() == AdapterView(false, Idle, "", [], Book(map[], map[]), [], [])
    {
      started := false;
      queue := [];
      pending := map[];
      completed := map[];
      holdings := [];
      balance := [];
      state, stateDesc := Idle, "";
    }

    /** Begins a session: enqueues one Start, unless already started. */
    method Start()
      requires Valid()
      modifies this
      ensures Valid()
      ensures old(started) ==> Snapshot() == old(Snapshot())
      ensures !old(started) ==> Snapshot() == old(Snapshot()).(started := true, queue := old(queue) + [StartCmd])
    {
      if started {
        return;
      }
      started := true;
      QueuePush(queue, pending, StartCmd);
      queue := queue + [StartCmd];
    }

    /** Asks the worker to end its run; enqueues Stop whether or not the adapter is started. */
    method Stop()
      requires Valid()
      modifies this
      ensures Valid()
      ensures Snapshot() == old(Snapshot()).(queue := old(queue) + [StopCmd])
    {
      QueuePush(queue, pending, StopCmd);
      queue := queue + [StopCmd];
    }

    /**
     * Files the new order as pending under `cmd`'s fresh id and enqueues the
     * command, as `buy` and `sell` both do.
     */
    method PlaceOrder(action: string, cmd: Command)
      requires Valid() && cmd.SubmitsOrder() && cmd.orderId !in KnownIds(Partitions())
      modifies this
      ensures Valid()
      ensures Snapshot() == old(Snapshot()).(
        queue := old(queue) + [cmd],
        book := Place(old(Partitions()), cmd.orderId, NewOrder(action, cmd.sid, cmd.quant, cmd.price, cmd.orderId)))
      ensures completed == old(completed)
      ensures Lookup(Partitions(), cmd.orderId) == NewOrder(action, cmd.sid, cmd.quant, cmd.price, cmd.orderId)
    {
      var o := NewOrder(action, cmd.sid, cmd.quant, cmd.price, cmd.orderId);
      PlaceFresh(Partitions(), cmd.orderId, o);
      QueuePushOrder(queue, pending, cmd, o);
      pending := pending[cmd.orderId := o];
      queue := queue + [cmd];
    }

    /** `buy`: `freshId` is the id the id generator hands out, unknown to both partitions. */
    method Buy(sid: string, amount: int, price: Price, orderType: string, freshId: string) returns (id: string)
      requires Valid() && freshId !in KnownIds(Partitions())
      modifies this
      ensures Valid() && id == freshId
      ensures Snapshot() == old(Snapshot()).(
        queue := old(queue) + [BuyCmd(sid, amount, price, orderType, id)],
        book := Place(old(Partitions()), id, NewOrder("open", sid, amount, price, id)))
      ensures completed == old(completed)
      ensures Lookup(Partitions(), id) == NewOrder("open", sid, amount, price, id)
    {
      id := freshId;
      PlaceOrder("open", BuyCmd(sid, amount, price, orderType, id));
    }

    /** `sell`: as Buy, with action "close" and a Sell command. */
    method Sell(sid: string, amount: int, price: Price, orderType: string, freshId: string) returns (id: string)
      requires Valid() && freshId !in KnownIds(Partitions())
      modifies this
      ensures Valid() && id == freshId
      ensures Snapshot() == old(Snapshot()).(
        queue := old(queue) + [SellCmd(sid, amount, price, orderType, id)],
        book := Place(old(Partitions()), id, NewOrder("close", sid, amount, price, id)))
      ensures completed == old(completed)
      ensures Lookup(Partitions(), id) == NewOrder("close", sid, amount, price, id)
    {
      id := freshId;
      PlaceOrder("close", SellCmd(sid, amount, price, orderType, id));
    }

    /** `closeOrder`: enqueues a Cancel for any id, known or not. */
    method CloseOrder(orderId: string)
      requires Valid()
      modifies this
      ensures Valid()
      ensures Snapshot() == old(Snapshot()).(queue := old(queue) + [CancelCmd(orderId)])
    {
      QueuePush(queue, pending, CancelCmd(orderId));
      queue := queue + [CancelCmd(orderId)];
    }

    /** The record for `orderId`, wherever it is filed; the default record for an unknown id. */
    method GetOrderState(orderId: string) returns (o: OrderState)
      requires Valid()
      ensures orderId in pending ==> o == pending[orderId]
      ensures orderId in completed ==> o == completed[orderId]
      ensures orderId in KnownIds(Partitions()) ==> o.userOrderId == orderId
      ensures orderId !in KnownIds(Partitions()) ==> o == DefaultOrder
    {
      if orderId in pending {
        return pending[orderId];
      }
      if orderId in completed {
        return completed[orderId];
      }
      return DefaultOrder;
    }

    method GetPendingOrderNum() returns (n: int)
      ensures n == |pending|
    {
      n := |pending|;
    }

    method GetAccountState() returns (s: string)
      ensures s == state
    {
      s := state;
    }

    method GetHoldingStock() returns (h: seq<Holding>)
      ensures h == holdings
    {
      h := holdings;
    }

    method GetBalance() returns (b: seq<Price>)
      ensures b == balance
    {
      b := balance;
    }

    method SetState(s: string, desc: string)
      modifies this
      ensures Snapshot() == old(Snapshot()).(state := s, stateDesc := desc)
    {
      state := s;
      stateDesc := desc;
    }

    /** The broker's answer to the submission of order `orderId`. */
    method CommitSubmission(orderId: string, brokerId: string)
      modifies this
      ensures Snapshot() == old(Snapshot()).(book := AfterSubmit(old(Partitions()), orderId, brokerId))
    {
      var o := if orderId in pending then pending[orderId] else DefaultOrder;
      if |brokerId| > 0 {
        pending := pending[orderId := o.(internalOrderId := brokerId)];
      } else {
        o := o.(state := Failed);
        completed := completed[orderId := o];
        pending := pending - {orderId};
      }
    }

    /** Cancels order `orderId` if it is pending with a security id and a broker id. */
    method CommitCancel(orderId: string)
      modifies this
      ensures Snapshot() == old(Snapshot()).(book := AfterCancel(old(Partitions()), orderId))
    {
      var sid, internalId := "", "";
      if orderId in pending {
        sid := pending[orderId].sid;
        internalId := pending[orderId].internalOrderId;
      }
      if |sid| > 0 && |internalId| > 0 {
        var o := pending[orderId].(state := Canceled);
        completed := completed[orderId := o];
        pending := pending - {orderId};
      }
    }

    /**
     * One pass of the worker loop. The broker's answers arrive in `replies`;
     * `reconcileDue` says whether the reconciliation interval has elapsed.
     * Returns the command processed, if any.
     */
    method Step(replies: BrokerReplies, reconcileDue: bool) returns (processed: Option<Command>)
      requires Valid() && started
      modifies this
      ensures Valid()
      ensures Snapshot() == WorkerStep(old(Snapshot()), replies, reconcileDue)
      ensures processed == if old(queue) == [] then None else Some(old(queue)[0])
    {
      ghost var v := Snapshot();
      StepPreserves(v, replies, reconcileDue);
      if |queue| > 0 {
        var cmd := queue[0];
        queue := queue[1..];
        processed := Some(cmd);
        match cmd {
          case StartCmd =>
            if replies.loginResult == 0 {
              SetState(Login, "login success");
              balance := replies.balance;
              holdings := replies.holdings;
            } else {
              SetState(LoginFailed, "login failed");
            }
          case BuyCmd(_, _, _, _, orderId) =>
            CommitSubmission(orderId, replies.submittedId);
          case SellCmd(_, _, _, _, orderId) =>
            CommitSubmission(orderId, replies.submittedId);
          case CancelCmd(orderId) =>
            CommitCancel(orderId);
          case StopCmd =>
            started := false;
        }
      } else {
        processed := None;
        if reconcileDue {
          UpdateAccountState(replies.holdings, replies.balance, replies.openOrders);
        }
      }
    }

    /** One row of the broker's open-order report, applied to the first pending order it matches. */
    method ApplyBrokerOrder(r: BrokerOrder)
      modifies this
      ensures Snapshot() == old(Snapshot()).(book := ApplyReport(old(Partitions()), r))
    {
      var k := FindFirstMatch(pending, r.orderId);
      if k.Some? {
        var o := pending[k.value].(dealQuant := r.dealQuant, dealPrice := r.dealPrice);
        if r.dealQuant == r.quant {
          o := o.(state := Fulfilled);
          completed := completed[o.userOrderId := o];
          pending := pending - {k.value};
        } else if r.dealQuant > 0 {
          pending := pending[k.value := o.(state := PartFilled)];
        } else {
          pending := pending[k.value := o];
        }
      }
    }

    /**
     * Reconciliation with the broker. It may also be applied while commands
     * are queued: the C++ adapter commits its result under a lock taken after
     * the (unlocked) broker queries, so callers can enqueue in between.
     */
    method UpdateAccountState(brokerHoldings: seq<Holding>, brokerBalance: seq<Price>, openOrders: seq<BrokerOrder>)
      requires Valid()
      modifies this
      ensures Valid()
      ensures Snapshot() == Reconcile(old(Snapshot()), brokerHoldings, brokerBalance, openOrders)
    {
      ReconcilePreserves(Snapshot(), brokerHoldings, brokerBalance, openOrders);
      var s := GetAccountState();
      if s == Login {
        var n := GetPendingOrderNum();
        var orders := if n > 0 then openOrders else [];
        balance := brokerBalance;
        holdings := brokerHoldings;
        ghost var v := Snapshot();
        for i := 0 to |orders|
          invariant Snapshot() == v.(book := ApplyReports(v.book, orders[..i]))
        {
          ApplyBrokerOrder(orders[i]);
          assert orders[..i + 1][..i] == orders[..i];
        }
        assert orders[..|orders|] == orders;
      }
    }
  }
}
