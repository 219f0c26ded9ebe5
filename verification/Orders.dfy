/** The order entity and its monotone state machine (engine/domain/models.py). */
module OrderModel {
  import opened Common

  datatype Status =
    | IntentCreated | Submitting | New | PartiallyFilled
    | Filled | Canceled | Rejected | Expired

  datatype Purpose = Entry | Exit | StopExit | ProtectiveStop

  /** The id an order carries at the exchange. The bot derives its own ids from the
      intent by a truncated SHA-256, which is taken to be injective. */
  datatype ClientOrderId = BotOrder(intent: string) | ForeignOrder(name: string)

  const NOT_FOUND_REASON: string := "NOT_FOUND_ON_EXCHANGE"

  predicate Terminal(s: Status) {
    s in {Filled, Canceled, Rejected, Expired}
  }

  function AllowedTransitions(s: Status): set<Status> {
    match s
    case IntentCreated => {Submitting, Rejected}
    case Submitting => {New, PartiallyFilled, Filled, Rejected, Canceled, Expired}
    case New => {PartiallyFilled, Filled, Canceled, Expired}
    case PartiallyFilled => {Filled, Canceled, Expired}
    case _ => {}
  }

  predicate CanTransition(current: Status, next: Status) {
    next in AllowedTransitions(current)
  }

  function Rank(s: Status): nat {
    match s
    case IntentCreated => 0
    case Submitting => 1
    case New => 2
    case PartiallyFilled => 3
    case _ => 4
  }

  /** A normalized order report, from REST or from the user data stream. */
  datatype Report = Report(
    clientOrderId: ClientOrderId, exchangeOrderId: Option<string>, status: Status,
    executedQty: real, cumQuoteQty: real, updateTimeMs: Option<int>, rejectReason: Option<string>)

  /** The values of one row of the `orders` table, whose key here is the unique client order id. */
  datatype OrderRow = OrderRow(
    clientOrderId: ClientOrderId, intentId: string, symbol: Symbol, side: Side, purpose: Purpose,
    requested: real, exchangeOrderId: Option<string>, status: Status, executed: real, cumQuote: real,
    average: Option<real>, ambiguous: bool, rejectReason: Option<string>, submittedAt: Option<int>,
    acknowledgedAt: Option<int>, lastUpdateMs: Option<int>, terminalAt: Option<int>, version: nat)

  predicate NotFoundReason(reason: Option<string>) {
    reason.Some? && NOT_FOUND_REASON <= reason.value
  }

  /** `Illegal` carries the entity as it stands when IllegalTransition is raised: the
      quantities of the report are already in it. */
  datatype MergeResult = Merged(row: OrderRow, changed: bool) | Illegal(row: OrderRow)

  // ------------------------------------------------------------------ what a report does, as a function

  /** A report contradicts what is known locally: the order was given up as not found but
      exists, or it ended in another way. */
  predicate Contradicts(o: OrderRow, reported: Status) {
    || (o.status == Rejected && NotFoundReason(o.rejectReason) && reported != Rejected)
    || (Terminal(o.status) && Terminal(reported) && reported != o.status)
  }

  predicate Advances(current: Status, reported: Status) {
    Rank(reported) > Rank(current) && CanTransition(current, reported)
  }

  predicate NewerTime(known: Option<int>, reported: Option<int>) {
    reported.Some? && reported.value != 0 && (known.None? || reported.value > known.value)
  }

  predicate Acknowledged(s: Status) {
    s !in {IntentCreated, Submitting, Rejected}
  }

  /** Exchange id and quantities are taken over before the status is looked at. */
  function TakeQuantities(o: OrderRow, r: Report): (o': OrderRow) {
    var id := if Present(r.exchangeOrderId) && !Present(o.exchangeOrderId) then r.exchangeOrderId else o.exchangeOrderId;
    var executed, cum := Max(o.executed, r.executedQty), Max(o.cumQuote, r.cumQuoteQty);
    var touched := id != o.exchangeOrderId || executed != o.executed || cum != o.cumQuote;
    o.(exchangeOrderId := id, executed := executed, cumQuote := cum,
       average := if touched && executed > 0.0 then Some(cum / executed) else o.average)
  }

  function TakeStatus(o: OrderRow, r: Report, now: int): (o': OrderRow) {
    if !Advances(o.status, r.status) then o
    else o.(status := r.status,
            terminalAt := if Terminal(r.status) then Some(now) else o.terminalAt,
            rejectReason := if r.status == Rejected then r.rejectReason else o.rejectReason)
  }

  function TakeTimes(o: OrderRow, r: Report, now: int): (o': OrderRow) {
    o.(lastUpdateMs := if NewerTime(o.lastUpdateMs, r.updateTimeMs) then r.updateTimeMs else o.lastUpdateMs,
       acknowledgedAt := if o.acknowledgedAt.None? && Acknowledged(o.status) then Some(now) else o.acknowledgedAt)
  }

  function Merge(o: OrderRow, r: Report, now: int): (m: MergeResult) {
    var o1 := TakeQuantities(o, r);
    if Contradicts(o, r.status) then Illegal(o1)
    else
      var o' := TakeTimes(TakeStatus(o1, r, now), r, now);
      Merged(o', o' != o)
  }

  // ------------------------------------------------------------------ the entity, updated in place

  datatype Verdict = Accepted(changed: bool) | IllegalTransition

  class Order {
    const clientOrderId: ClientOrderId
    const intentId: string
    const symbol: Symbol
    const side: Side
    const purpose: Purpose
    const requested: real
    var exchangeOrderId: Option<string>
    var status: Status
    var executed: real
    var cumQuote: real
    var average: Option<real>
    var ambiguous: bool
    var rejectReason: Option<string>
    var submittedAt: Option<int>
    var acknowledgedAt: Option<int>
    var lastUpdateMs: Option<int>
    var terminalAt: Option<int>
    var version: nat

    function Row(): OrderRow
      reads this
    {
      OrderRow(clientOrderId, intentId, symbol, side, purpose, requested, exchangeOrderId, status, executed,
               cumQuote, average, ambiguous, rejectReason, submittedAt, acknowledgedAt, lastUpdateMs, terminalAt,
               version)
    }

    constructor FromRow(r: OrderRow)
      ensures Row() == r
    {
      clientOrderId, intentId, symbol, side := r.clientOrderId, r.intentId, r.symbol, r.side;
      purpose, requested, exchangeOrderId, status := r.purpose, r.requested, r.exchangeOrderId, r.status;
      executed, cumQuote, average, ambiguous := r.executed, r.cumQuote, r.average, r.ambiguous;
      rejectReason, submittedAt, acknowledgedAt := r.rejectReason, r.submittedAt, r.acknowledgedAt;
      lastUpdateMs, terminalAt, version := r.lastUpdateMs, r.terminalAt, r.version;
    }

    method Transition(next: Status, now: int) returns (ok: bool)
      modifies this`status, this`terminalAt
      ensures ok == (next == old(status) || CanTransition(old(status), next))
      ensures ok ==> status == next
      ensures !ok ==> Row() == old(Row())
      ensures terminalAt == if ok && next != old(status) && Terminal(next) then Some(now) else old(terminalAt)
    {
      if next == status {
        return true;
      }
      if !CanTransition(status, next) {
        return false;
      }
      status := next;
      if Terminal(next) {
        terminalAt := Some(now);
      }
      return true;
    }

    method MarkSubmitting(now: int) returns (ok: bool)
      modifies this
      ensures ok == (old(status) in {IntentCreated, Submitting})
      ensures ok ==> Row() == old(Row()).(status := Submitting, submittedAt := Some(now))
      ensures !ok ==> Row() == old(Row())
    {
      ok := Transition(Submitting, now);
      if ok {
        submittedAt := Some(now);
      }
    }

    /** Rejecting a live order that the exchange has already acknowledged is illegal. */
    method MarkRejected(reason: string, now: int) returns (v: Verdict)
      modifies this
      ensures v == RejectVerdict(old(status))
      ensures Row() == if v == Accepted(true) then RejectedRow(old(Row()), reason, now) else old(Row())
    {
      if Terminal(status) {
        return Accepted(false);
      }
      var ok := Transition(Rejected, now);
      if !ok {
        return IllegalTransition;
      }
      rejectReason := Some(reason);
      return Accepted(true);
    }

    method ApplyReport(r: Report, now: int) returns (v: Verdict)
      modifies this
      ensures Row() == Merge(old(Row()), r, now).row
      ensures match Merge(old(Row()), r, now)
              case Merged(_, changed) => v == Accepted(changed)
              case Illegal(_) => v == IllegalTransition
    {
      var changed := AbsorbQuantities(r);
      ghost var o1 := Row();
      if status == Rejected && NotFoundReason(rejectReason) && r.status != Rejected {
        return IllegalTransition;
      }
      if r.status != status && Rank(r.status) > Rank(status) && CanTransition(status, r.status) {
        var _ := Transition(r.status, now);
        if r.status == Rejected {
          rejectReason := r.rejectReason;
        }
        changed := true;
      } else if r.status != status && Rank(r.status) >= Rank(status) && Terminal(status) {
        return IllegalTransition;
      }
      assert Row() == TakeStatus(o1, r, now);
      var stamped := StampTimes(r, now);
      return Accepted(changed || stamped);
    }

    /** The first half of applying a report: quantities are monotone whatever the status says. */
    method AbsorbQuantities(r: Report) returns (changed: bool)
      modifies this`exchangeOrderId, this`executed, this`cumQuote, this`average
      ensures Row() == TakeQuantities(old(Row()), r)
      ensures changed == (Row() != old(Row()))
    {
      changed := false;
      if Present(r.exchangeOrderId) && !Present(exchangeOrderId) {
        exchangeOrderId := r.exchangeOrderId;
        changed := true;
      }
      if r.executedQty > executed {
        executed := r.executedQty;
        changed := true;
      }
      if r.cumQuoteQty > cumQuote {
        cumQuote := r.cumQuoteQty;
        changed := true;
      }
      if changed && executed > 0.0 {
        average := Some(cumQuote / executed);
      }
    }

    /** The last half: exchange clock and first acknowledgement. */
    method StampTimes(r: Report, now: int) returns (changed: bool)
      modifies this`lastUpdateMs, this`acknowledgedAt
      ensures Row() == TakeTimes(old(Row()), r, now)
      ensures changed == (Row() != old(Row()))
    {
      changed := false;
      if r.updateTimeMs.Some? && r.updateTimeMs.value != 0 &&
         (lastUpdateMs.None? || r.updateTimeMs.value > lastUpdateMs.value) {
        lastUpdateMs := r.updateTimeMs;
        changed := true;
      }
      if acknowledgedAt.None? && status !in {IntentCreated, Submitting, Rejected} {
        acknowledgedAt := Some(now);
        changed := true;
      }
    }
  }

  function RejectVerdict(s: Status): Verdict {
    if Terminal(s) then Accepted(false)
    else if s in {IntentCreated, Submitting} then Accepted(true)
    else IllegalTransition
  }

  function RejectedRow(o: OrderRow, reason: string, now: int): OrderRow {
    o.(status := Rejected, terminalAt := Some(now), rejectReason := Some(reason))
  }
}
