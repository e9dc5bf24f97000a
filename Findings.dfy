/**
 * Reconciliation as written matches a report row against every pending order
 * whose broker id equals the row's id, including the empty id of an order the
 * broker has not acknowledged yet. Such an order can then be completed by the
 * report and afterwards re-filed in pending when its submission is processed,
 * since that step fetches the record with the map's index operator.
 */
module Findings {
  import opened Orders
  import opened StringOrder
  import opened OrderBook

  /** The match test of reconciliation as written: broker ids equal, empty or not. */
  predicate MatchesAsWritten(o: OrderState, reportId: string)
  {
    o.internalOrderId == reportId
  }

  ghost function FirstMatchAsWritten(pending: map<string, OrderState>, reportId: string): Option<string>
  {
    LeastKey(set k | k in pending && MatchesAsWritten(pending[k], reportId))
  }

  ghost function ApplyReportAsWritten(b: Book, r: BrokerOrder): Book
  {
    match FirstMatchAsWritten(b.pending, r.orderId)
    case None => b
    case Some(k) => ApplyFill(b, k, r)
  }

  /** The two match tests differ only on report rows that carry an empty order id. */
  lemma MatchesDifferOnlyOnEmptyId(b: Book, r: BrokerOrder)
    requires r.orderId != ""
    ensures ApplyReportAsWritten(b, r) == ApplyReport(b, r)
  {
    assert (set k | k in b.pending && MatchesAsWritten(b.pending[k], r.orderId)) == MatchingKeys(b.pending, r.orderId);
  }

  /**
   * U1 is bought; before its Buy command is processed, reconciliation sees a
   * row with an empty order id and a full fill; then the broker accepts U1
   * as B1. U1 ends up in both partitions.
   */
  lemma UnacknowledgedMatchBreaksPartition()
    ensures var b0 := Place(Book(map[], map[]), "U1", NewOrder("open", "AAPL", 100, 150, "U1"));
      var b1 := ApplyReportAsWritten(b0, BrokerOrder("", 5, 5, 0));
      var b2 := AfterSubmit(b1, "U1", "B1");
      && Partitioned(b0)
      && "U1" in b1.completed && Lookup(b1, "U1").state == Fulfilled
      && "U1" in b2.pending && "U1" in b2.completed && !Partitioned(b2)
  {
    var b0 := Place(Book(map[], map[]), "U1", NewOrder("open", "AAPL", 100, 150, "U1"));
    var keys := set k | k in b0.pending && MatchesAsWritten(b0.pending[k], "");
    assert keys == {"U1"};
    LexLessIrreflexive("U1");
    LeastKeyIs("U1", keys);
  }

  /** With the corrected match the same run leaves U1 pending, acknowledged, and only there. */
  lemma AcknowledgedMatchKeepsPartition()
    ensures var b0 := Place(Book(map[], map[]), "U1", NewOrder("open", "AAPL", 100, 150, "U1"));
      var b1 := ApplyReport(b0, BrokerOrder("", 5, 5, 0));
      var b2 := AfterSubmit(b1, "U1", "B1");
      && b1 == b0
      && Partitioned(b2) && "U1" in b2.pending && "U1" !in b2.completed
      && Lookup(b2, "U1").internalOrderId == "B1"
  {
    var b0 := Place(Book(map[], map[]), "U1", NewOrder("open", "AAPL", 100, 150, "U1"));
    assert MatchingKeys(b0.pending, "") == {};
  }
}
