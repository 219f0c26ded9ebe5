/** What the merge of engine/domain/models.py guarantees: monotone on every input, and confluent
    on everything an exchange can say about one order. */
module OrderLaws {
  import opened Common
  import opened OrderModel

  // ------------------------------------------------------------------ single reports

  ghost predicate AverageConsistent(o: OrderRow) {
    o.executed > 0.0 ==> o.average == Some(o.cumQuote / o.executed)
  }

  /** Which fields a report may touch, and in which direction. */
  ghost predicate Progress(o: OrderRow, o': OrderRow) {
    && o' == o.(exchangeOrderId := o'.exchangeOrderId, status := o'.status, executed := o'.executed,
                cumQuote := o'.cumQuote, average := o'.average, rejectReason := o'.rejectReason,
                acknowledgedAt := o'.acknowledgedAt, lastUpdateMs := o'.lastUpdateMs, terminalAt := o'.terminalAt)
    && o'.executed >= o.executed
    && o'.cumQuote >= o.cumQuote
    && (o'.status == o.status || Rank(o'.status) > Rank(o.status))
    && (Terminal(o.status) ==> o'.status == o.status && o'.rejectReason == o.rejectReason)
    && (Present(o.exchangeOrderId) ==> o'.exchangeOrderId == o.exchangeOrderId)
    && (o.acknowledgedAt.Some? ==> o'.acknowledgedAt == o.acknowledgedAt)
    && (Terminal(o.status) ==> o'.terminalAt == o.terminalAt)
  }

  lemma MergeProgress(o: OrderRow, r: Report, now: int)
    requires Merge(o, r, now).Merged?
    ensures Progress(o, Merge(o, r, now).row)
    ensures Merge(o, r, now).row.executed >= r.executedQty
    ensures Merge(o, r, now).row.cumQuote >= r.cumQuoteQty
    ensures AverageConsistent(o) ==> AverageConsistent(Merge(o, r, now).row)
  {
  }

  /** A report the order has nothing left to learn from. */
  ghost predicate Absorbs(o: OrderRow, r: Report) {
    && (Present(r.exchangeOrderId) ==> Present(o.exchangeOrderId))
    && r.executedQty <= o.executed
    && r.cumQuoteQty <= o.cumQuote
    && !Contradicts(o, r.status)
    && !Advances(o.status, r.status)
    && !NewerTime(o.lastUpdateMs, r.updateTimeMs)
    && (Acknowledged(o.status) ==> o.acknowledgedAt.Some?)
  }

  lemma AbsorbedExactly(o: OrderRow, r: Report, now: int)
    ensures Merge(o, r, now) == Merged(o, false) <==> Absorbs(o, r)
  {
  }

  /** A report applied twice changes the order at most once, whatever the clock says. */
  lemma MergeIdempotent(o: OrderRow, r: Report, now: int, later: int)
    requires Merge(o, r, now).Merged?
    ensures Merge(Merge(o, r, now).row, r, later) == Merged(Merge(o, r, now).row, false)
  {
  }

  /** Reports of a higher rank that leave no trace in the status: exactly a refusal after the
      acknowledgement, and anything but a refusal for an order that was never submitted. */
  lemma SilentlyIgnoredExactly(o: OrderRow, r: Report, now: int)
    ensures (Merge(o, r, now).Merged? && Rank(r.status) > Rank(o.status) && Merge(o, r, now).row.status == o.status)
       <==> ((o.status in {New, PartiallyFilled} && r.status == Rejected)
             || (o.status == IntentCreated && r.status !in {IntentCreated, Submitting, Rejected}))
  {
  }

  /** Where two reports leave the status of an order that awaits its answer. */
  function StatusAfterBoth(first: Status, second: Status): Status {
    if Advances(first, second) then second else first
  }

  ghost predicate AnswerReport(r: Report) {
    CanTransition(Submitting, r.status) && (r.status == Rejected ==> !NotFoundReason(r.rejectReason))
  }

  lemma FirstReport(o: OrderRow, r: Report, now: int)
    requires o.status == Submitting && AnswerReport(r)
    ensures Merge(o, r, now).Merged?
    ensures Merge(o, r, now).row.status == r.status
    ensures r.status == Rejected ==> !NotFoundReason(Merge(o, r, now).row.rejectReason)
  {
  }

  lemma SecondReport(o: OrderRow, r: Report, now: int)
    requires CanTransition(Submitting, o.status) && AnswerReport(r)
    requires o.status == Rejected ==> !NotFoundReason(o.rejectReason)
    ensures Merge(o, r, now).Illegal? <==> Terminal(o.status) && Terminal(r.status) && o.status != r.status
    ensures Merge(o, r, now).Merged? ==> Merge(o, r, now).row.status == StatusAfterBoth(o.status, r.status)
  {
  }

  lemma BothReports(o: OrderRow, r1: Report, r2: Report, t1: int, t2: int)
    requires o.status == Submitting && AnswerReport(r1) && AnswerReport(r2)
    ensures Merge(o, r1, t1).Merged?
    ensures var m := Merge(Merge(o, r1, t1).row, r2, t2);
            && (m.Illegal? <==> Terminal(r1.status) && Terminal(r2.status) && r1.status != r2.status)
            && (m.Merged? ==> m.row.status == StatusAfterBoth(r1.status, r2.status))
  {
    FirstReport(o, r1, t1);
    SecondReport(Merge(o, r1, t1).row, r2, t2);
  }

  function InTurn(o: OrderRow, first: Report, second: Report, t1: int, t2: int): MergeResult {
    Merge(Merge(o, first, t1).row, second, t2)
  }

  /** The two orders in which two reports can arrive for an order that awaits its answer. Both raise,
      or both are accepted; the final status then depends on the order of arrival exactly when one
      report is a refusal and the other one is not final. */
  lemma PairConfluenceExactly(o: OrderRow, r1: Report, r2: Report, t1: int, t2: int, m12: MergeResult, m21: MergeResult)
    requires o.status == Submitting && AnswerReport(r1) && AnswerReport(r2)
    requires m12 == InTurn(o, r1, r2, t1, t2) && m21 == InTurn(o, r2, r1, t1, t2)
    ensures m12.Illegal? <==> m21.Illegal?
    ensures m12.Illegal? <==> Terminal(r1.status) && Terminal(r2.status) && r1.status != r2.status
    ensures m12.Merged? ==>
              (m12.row.status != m21.row.status <==>
                || (r1.status == Rejected && !Terminal(r2.status))
                || (r2.status == Rejected && !Terminal(r1.status)))
  {
    hide Merge;
    BothReports(o, r1, r2, t1, t2);
    BothReports(o, r2, r1, t1, t2);
  }

  // ------------------------------------------------------------------ what an exchange can say about one order

  ghost predicate Follows(earlier: Report, later: Report) {
    && (later.status == earlier.status || CanTransition(earlier.status, later.status))
    && later.executedQty >= earlier.executedQty
    && later.cumQuoteQty >= earlier.cumQuoteQty
    && later.exchangeOrderId == earlier.exchangeOrderId
  }

  /** The successive states of one order at the exchange: a path of allowed transitions that starts
      where the submission leaves the order, with quantities that never shrink. */
  ghost predicate ValidHistory(h: seq<Report>) {
    && (|h| > 0 ==> && CanTransition(Submitting, h[0].status)
                    && h[0].executedQty >= 0.0 && h[0].cumQuoteQty >= 0.0
                    && Present(h[0].exchangeOrderId))
    && forall i | 0 < i < |h| :: Follows(h[i - 1], h[i])
  }

  lemma HistoryIsOrdered(h: seq<Report>, i: nat, j: nat)
    requires ValidHistory(h) && i <= j < |h|
    ensures Follows(h[i], h[j])
    ensures CanTransition(Submitting, h[j].status)
    ensures h[j].executedQty >= 0.0 && h[j].cumQuoteQty >= 0.0 && Present(h[j].exchangeOrderId)
    decreases j
  {
    if i < j {
      HistoryIsOrdered(h, i, j - 1);
    } else if 0 < j {
      HistoryIsOrdered(h, j - 1, j - 1);
      assert Follows(h[j - 1], h[j]);
    }
  }

  /** The local order as it stands once the newest report it has seen is h[k]; -1 is before the first. */
  ghost predicate AtPoint(o: OrderRow, h: seq<Report>, k: int)
    requires -1 <= k < |h|
  {
    && AverageConsistent(o)
    && (Acknowledged(o.status) ==> o.acknowledgedAt.Some?)
    && if k == -1 then o.status == Submitting && o.executed == 0.0 && o.cumQuote == 0.0 && o.exchangeOrderId.None?
       else && o.status == h[k].status && o.executed == h[k].executedQty && o.cumQuote == h[k].cumQuoteQty
            && o.exchangeOrderId == h[k].exchangeOrderId
  }

  lemma DeliverOne(o: OrderRow, h: seq<Report>, k: int, i: nat, now: int)
    requires ValidHistory(h) && -1 <= k < |h| && i < |h| && AtPoint(o, h, k)
    ensures Merge(o, h[i], now).Merged?
    ensures AtPoint(Merge(o, h[i], now).row, h, MaxInt(k, i))
  {
    HistoryIsOrdered(h, i, i);
    if 0 <= k <= i {
      HistoryIsOrdered(h, k, i);
    } else if i < k {
      HistoryIsOrdered(h, i, k);
    }
    MergeProgress(o, h[i], now);
  }

  /** One arrival: which report of the history, and the local clock when it is applied. */
  datatype Arrival = Arrival(report: nat, at: int)

  ghost predicate Arrivals(h: seq<Report>, w: seq<Arrival>) {
    forall a | a in w :: a.report < |h|
  }

  /** Applying reports one after the other; an illegal one ends it. */
  function Deliver(o: OrderRow, h: seq<Report>, w: seq<Arrival>): (m: MergeResult)
    requires forall a | a in w :: a.report < |h|
    decreases |w|
  {
    if w == [] then Merged(o, false)
    else
      var m := Deliver(o, h, w[..|w| - 1]);
      var last := w[|w| - 1];
      match m
      case Illegal(_) => m
      case Merged(o1, c1) =>
        match Merge(o1, h[last.report], last.at)
        case Merged(o2, c2) => Merged(o2, c1 || c2)
        case Illegal(o2) => Illegal(o2)
  }

  function Newest(w: seq<Arrival>): (k: int)
    ensures k == -1 <==> w == []
    ensures forall a | a in w :: a.report <= k
    ensures w != [] ==> exists a | a in w :: a.report == k
  {
    if w == [] then -1
    else
      var rest, last := w[..|w| - 1], w[|w| - 1];
      assert w == rest + [last];
      MaxInt(Newest(rest), last.report)
  }

  /** Any interleaving, duplication and reordering of the history is accepted and leaves the order
      where the newest delivered report puts it. */
  lemma {:induction false} DeliveryReachesNewest(o: OrderRow, h: seq<Report>, w: seq<Arrival>)
    requires ValidHistory(h) && Arrivals(h, w) && AtPoint(o, h, -1)
    ensures Deliver(o, h, w).Merged?
    ensures AtPoint(Deliver(o, h, w).row, h, Newest(w))
    decreases |w|
  {
    if w != [] {
      var rest, last := w[..|w| - 1], w[|w| - 1];
      assert last in w;
      assert forall a | a in rest :: a in w;
      DeliveryReachesNewest(o, h, rest);
      DeliverOne(Deliver(o, h, rest).row, h, Newest(rest), last.report, last.at);
    }
  }

  ghost predicate SameFacts(a: OrderRow, b: OrderRow) {
    && a.status == b.status && a.executed == b.executed && a.cumQuote == b.cumQuote
    && a.exchangeOrderId == b.exchangeOrderId
    && (a.executed > 0.0 ==> a.average == b.average)
  }

  /** Two processes that see the same history in any two ways agree as soon as both have seen its
      newest report. */
  lemma Confluence(o: OrderRow, h: seq<Report>, w1: seq<Arrival>, w2: seq<Arrival>)
    requires ValidHistory(h) && Arrivals(h, w1) && Arrivals(h, w2) && AtPoint(o, h, -1)
    requires Newest(w1) == Newest(w2)
    ensures Deliver(o, h, w1).Merged? && Deliver(o, h, w2).Merged?
    ensures SameFacts(Deliver(o, h, w1).row, Deliver(o, h, w2).row)
  {
    DeliveryReachesNewest(o, h, w1);
    DeliveryReachesNewest(o, h, w2);
  }

  lemma AbsorbsKept(o: OrderRow, h: seq<Report>, k: int, i: nat, j: nat, now: int)
    requires ValidHistory(h) && 0 <= i <= k < |h| && j < |h| && AtPoint(o, h, k) && Absorbs(o, h[i])
    ensures Merge(o, h[j], now).Merged? && Absorbs(Merge(o, h[j], now).row, h[i])
  {
    DeliverOne(o, h, k, j, now);
    HistoryIsOrdered(h, i, i);
    HistoryIsOrdered(h, i, MaxInt(k, j));
  }

  /** A redelivered report changes nothing at all, not even the order's version: the caller saves
      and announces an order only when its report changed something. */
  lemma {:induction false} RedeliveryChangesNothing(o: OrderRow, h: seq<Report>, w: seq<Arrival>, a: Arrival, later: int)
    requires ValidHistory(h) && Arrivals(h, w) && AtPoint(o, h, -1) && a in w
    ensures Deliver(o, h, w).Merged?
    ensures Merge(Deliver(o, h, w).row, h[a.report], later) == Merged(Deliver(o, h, w).row, false)
    decreases |w|
  {
    DeliveryReachesNewest(o, h, w);
    var rest, last := w[..|w| - 1], w[|w| - 1];
    assert w == rest + [last];
    assert forall b | b in rest :: b in w;
    DeliveryReachesNewest(o, h, rest);
    var before := Deliver(o, h, rest).row;
    if a in rest {
      RedeliveryChangesNothing(o, h, rest, a, later);
      AbsorbedExactly(before, h[a.report], later);
      AbsorbsKept(before, h, Newest(rest), a.report, last.report, last.at);
      AbsorbedExactly(Deliver(o, h, w).row, h[a.report], later);
    } else {
      MergeIdempotent(before, h[last.report], last.at, later);
    }
  }
}
