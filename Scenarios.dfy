/**
 * Whole order lifecycles run through the order-book transitions: a fill
 * reported in two parts, a buy of 100 AAPL at 150, a rejected
 * submission, and a cancel issued before the broker acknowledged the order.
 */
module Scenarios {
  import opened Orders
  import opened OrderBook

  /**
   * An acknowledged order whose broker reports a growing fill goes pending,
   * then partfilled, then fulfilled, and ends in completed with the full
   * quantity, still found under its correlation id.
   */
  lemma FillProgression(b: Book, id: string, brokerId: string, quant: int, part: int, p1: Price, p2: Price)
    requires Partitioned(b) && id in b.pending && b.pending[id].internalOrderId == ""
    requires brokerId != "" && forall j :: j in b.pending ==> b.pending[j].internalOrderId != brokerId
    requires 0 < part < quant
    ensures var b1 := AfterSubmit(b, id, brokerId);
      var b2 := ApplyReport(b1, BrokerOrder(brokerId, quant, part, p1));
      var b3 := ApplyReport(b2, BrokerOrder(brokerId, quant, quant, p2));
      && id in b1.pending && Lookup(b1, id).state == Lookup(b, id).state && Lookup(b1, id).internalOrderId == brokerId
      && id in b2.pending && Lookup(b2, id).state == PartFilled && Lookup(b2, id).dealQuant == part
      && id in b3.completed && id !in b3.pending
      && Lookup(b3, id).state == Fulfilled && Lookup(b3, id).dealQuant == quant && Lookup(b3, id).userOrderId == id
  {
    var b1 := AfterSubmit(b, id, brokerId);
    SubmitOutcome(b, id, brokerId);
    FirstMatchOnly(b1.pending, id, brokerId);
    var b2 := ApplyReport(b1, BrokerOrder(brokerId, quant, part, p1));
    ReportOutcome(b1, BrokerOrder(brokerId, quant, part, p1));
    FirstMatchOnly(b2.pending, id, brokerId);
    ReportOutcome(b2, BrokerOrder(brokerId, quant, quant, p2));
  }

  /**
   * A buy of 100 AAPL at 150 filed as U1 is pending with nothing filled;
   * the broker acknowledges it as B1 and the state is unchanged; one
   * reconciliation reporting 100 filled leaves it fulfilled, found only in
   * completed.
   */
  lemma AaplScenario()
    ensures var b0 := Place(Book(map[], map[]), "U1", NewOrder("open", "AAPL", 100, 150, "U1"));
      var b1 := AfterSubmit(b0, "U1", "B1");
      var b2 := ApplyReports(b1, [BrokerOrder("B1", 100, 100, 150)]);
      && Lookup(b0, "U1").state == Pending && Lookup(b0, "U1").dealQuant == 0
      && Lookup(b1, "U1").state == Pending && Lookup(b1, "U1").internalOrderId == "B1"
      && Lookup(b2, "U1").state == Fulfilled && Lookup(b2, "U1").dealQuant == 100
      && "U1" in b2.completed && "U1" !in b2.pending
  {
    var b0 := Place(Book(map[], map[]), "U1", NewOrder("open", "AAPL", 100, 150, "U1"));
    var b1 := AfterSubmit(b0, "U1", "B1");
    var rs := [BrokerOrder("B1", 100, 100, 150)];
    FirstMatchOnly(b1.pending, "U1", "B1");
    assert rs[..0] == [];
  }

  /** A submission the broker rejects is failed and completed at once, without waiting for reconciliation. */
  lemma RejectedSubmissionFails(b: Book, id: string)
    requires Partitioned(b) && id in b.pending
    ensures var b' := AfterSubmit(b, id, "");
      id !in b'.pending && id in b'.completed && Lookup(b', id).state == Failed
  {
    SubmitOutcome(b, id, "");
  }

  /** A cancel for an order the broker has not acknowledged yet changes nothing: the order stays pending. */
  lemma CancelBeforeAckIsNoOp(b: Book, id: string)
    requires id in b.pending && b.pending[id].internalOrderId == ""
    ensures AfterCancel(b, id) == b && id in AfterCancel(b, id).pending
  {
  }
}
