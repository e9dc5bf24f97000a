/**
 * Value types of the broker adapter: the order record kept in the two order
 * partitions, the commands callers put into the mailbox, and the rows of the
 * broker's open-order report.
 */
module Orders {

  datatype Option<T> = None | Some(value: T)

  /** A price or balance figure; the adapter only copies these, never computes with them. */
  type Price = int

  /** One row of the broker's holdings list; the adapter only stores the list it is given. */
  type Holding(==)

  // Lifecycle states of an order record.
  const Pending := "pending"
  const PartFilled := "partfilled"
  const Fulfilled := "fulfilled"
  const Canceled := "canceled"
  const Failed := "failed"

  // Status values of the account snapshot.
  const Idle := "idle"
  const Login := "login"
  const LoginFailed := "failed"

  /** An order as the adapter tracks it, keyed by its caller-visible id. */
  datatype OrderState = OrderState(
    sid: string,
    action: string,          // "open" for a buy, "close" for a sell
    direction: int,
    price: Price,
    quant: int,
    dealQuant: int,
    dealPrice: Price,
    state: string,
    userOrderId: string,     // the caller-visible correlation id
    internalOrderId: string  // the broker's id, "" until the submission is acknowledged
  )

  /** The record a lookup yields for an id known to neither partition. */
  const DefaultOrder := OrderState("", "", 0, 0, 0, 0, 0, "", "", "")

  /** The record `buy` and `sell` file under a fresh id before enqueuing the command. */
  function NewOrder(action: string, sid: string, quant: int, price: Price, id: string): (o: OrderState)
    ensures o.state == Pending && o.userOrderId == id && o.internalOrderId == ""
    ensures o.sid == sid && o.quant == quant && o.price == price && o.action == action
    ensures o.direction == 1 && o.dealQuant == 0 && o.dealPrice == 0
  {
    OrderState(sid, action, 1, price, quant, 0, 0, Pending, id, "")
  }

  /** A command in the mailbox; Buy, Sell and Cancel carry the correlation id they act on. */
  datatype Command =
    | StartCmd
    | StopCmd
    | BuyCmd(sid: string, quant: int, price: Price, orderType: string, orderId: string)
    | SellCmd(sid: string, quant: int, price: Price, orderType: string, orderId: string)
    | CancelCmd(orderId: string)
  {
    /** Buy and Sell submit an order to the broker when processed. */
    predicate SubmitsOrder() { BuyCmd? || SellCmd? }
  }

  /** One row of the broker's open-order list. */
  datatype BrokerOrder = BrokerOrder(orderId: string, quant: int, dealQuant: int, dealPrice: Price)
}
