/** What the fields of an order say about one another, in every state of the ledger, and which of them a report may
    change to what (engine/domain/models.py). */
module OrderRecords {
  import opened Common
  import opened OrderModel
  import opened Ledger

  // ------------------------------------------------------------------ the status machine

  /** Every allowed edge raises the rank, a refusal follows only what the exchange has not acknowledged, and an order that
      was never submitted can only be submitted or refused; every such edge is allowed. */
  lemma EdgesExactly(a: Status, b: Status)
    ensures CanTransition(a, b) <==>
              && Rank(a) < Rank(b)
              && (b == Rejected ==> a in {IntentCreated, Submitting})
              && (a == IntentCreated ==> b in {Submitting, Rejected})
    ensures Rank(a) <= 4 && (Rank(a) == 4 <==> a in {Filled, Canceled, Rejected, Expired})
    ensures Rank(a) == Rank(b) ==> a == b || (Terminal(a) && Terminal(b))
    ensures CanTransition(IntentCreated, Submitting) && CanTransition(Submitting, New) && CanTransition(New, PartiallyFilled)
    ensures CanTransition(PartiallyFilled, Filled)
  {
  }

  // ------------------------------------------------------------------ one report, field by field

  /** Whether the exchange has ever confirmed the order. */
  predicate Confirms(s: Status) {
    s in {New, PartiallyFilled, Filled, Canceled, Expired}
  }

  /** A known exchange id stays; quantities become the larger, the exchange's clock the later one; the status moves along
      an allowed edge or not at all; an end is stamped when it comes and a refusal brings its reason; the first
      confirmation is stamped; the average is what was paid per unit. Nothing else changes. */
  lemma ReportTakesFields(o: OrderRow, r: Report, now: int)
    requires Merge(o, r, now).Merged?
    ensures var o' := Merge(o, r, now).row;
            var moves := Rank(o.status) < Rank(r.status) && CanTransition(o.status, r.status);
            && o'.exchangeOrderId == (if !Present(o.exchangeOrderId) && Present(r.exchangeOrderId) then r.exchangeOrderId else o.exchangeOrderId)
            && o'.executed == (if r.executedQty > o.executed then r.executedQty else o.executed)
            && o'.cumQuote == (if r.cumQuoteQty > o.cumQuote then r.cumQuoteQty else o.cumQuote)
            && o'.status == (if moves then r.status else o.status)
            && o'.terminalAt == (if moves && Terminal(r.status) then Some(now) else o.terminalAt)
            && o'.rejectReason == (if moves && r.status == Rejected then r.rejectReason else o.rejectReason)
            && o'.acknowledgedAt == (if o.acknowledgedAt.None? && Confirms(o'.status) then Some(now) else o.acknowledgedAt)
            && LaterClock(o.lastUpdateMs, r.updateTimeMs, o'.lastUpdateMs)
            && (o'.average != o.average ==> o'.executed > 0.0 && o'.average == Some(o'.cumQuote / o'.executed))
            && o' == o.(exchangeOrderId := o'.exchangeOrderId, executed := o'.executed, cumQuote := o'.cumQuote,
                        status := o'.status, terminalAt := o'.terminalAt, rejectReason := o'.rejectReason,
                        acknowledgedAt := o'.acknowledgedAt, lastUpdateMs := o'.lastUpdateMs, average := o'.average)
  {
  }

  /** A time of zero, or none, is no time. */
  predicate LaterClock(known: Option<int>, told: Option<int>, after: Option<int>) {
    if told.None? || told.value == 0 then after == known
    else after == Some(if known.Some? then MaxInt(known.value, told.value) else told.value)
  }

  // ------------------------------------------------------------------ every order in every state

  /** The fields agree: the average is what was paid per unit; an order has a time of end exactly when it has ended, a time
      of acknowledgement exactly when the exchange has confirmed it, and a reason only when it was refused. */
  ghost predicate Agrees(o: OrderRow) {
    && o.executed >= 0.0 && o.cumQuote >= 0.0
    && o.average == (if o.executed > 0.0 then Some(o.cumQuote / o.executed) else None)
    && (o.terminalAt.Some? <==> Terminal(o.status))
    && (o.acknowledgedAt.Some? <==> Confirms(o.status))
    && (o.rejectReason.Some? ==> o.status == Rejected)
    && o.submittedAt.Some? && o.status != IntentCreated && (o.lastUpdateMs.Some? ==> o.lastUpdateMs.value != 0)
  }

  lemma MergeAgrees(o: OrderRow, r: Report, now: int)
    requires Agrees(o) && Merge(o, r, now).Merged?
    ensures Agrees(Merge(o, r, now).row)
  {
  }

  lemma RejectAgrees(o: OrderRow, reason: string, now: int)
    requires Agrees(o) && RejectVerdict(o.status) == Accepted(true)
    ensures Agrees(RejectedRow(o, reason, now))
  {
  }

  ghost predicate AllAgree(db: Db) {
    forall c | c in db.orders :: Agrees(db.orders[c])
  }

  lemma UpdateAgrees(db: Db, o: OrderRow)
    requires WellFormed(db) && Replaces(db, o) && AllAgree(db) && Agrees(o)
    ensures AllAgree(Updated(db, o))
  {
    assert Agrees(o.(version := o.version + 1));
    hide Agrees;
  }

  lemma ReportAgrees(db: Db, r: Report, now: int)
    requires WellFormed(db) && AllAgree(db)
    ensures AllAgree(ApplyReport(db, r, now).0)
  {
    hide Agrees, Merge;
    var located := Locate(db, Some(r.clientOrderId), r.exchangeOrderId);
    if located.Some? {
      LocatedFits(db, Some(r.clientOrderId), r.exchangeOrderId);
      var m := Merge(db.orders[located.value], r, now);
      if m.Merged? && m.changed && !IdTaken(db, m.row) {
        MergeAgrees(db.orders[located.value], r, now);
        MergeReplaces(db, located.value, r, now);
        UpdateAgrees(db, m.row);
      }
    }
  }

  lemma MergeReplaces(db: Db, c: ClientOrderId, r: Report, now: int)
    requires WellFormed(db) && c in db.orders && RowFits(db, c)
    requires Merge(db.orders[c], r, now).Merged? && !IdTaken(db, Merge(db.orders[c], r, now).row)
    ensures Replaces(db, Merge(db.orders[c], r, now).row)
  {
  }

  lemma EventAgrees(db: Db, ev: StreamEvent, now: int)
    requires WellFormed(db) && AllAgree(db)
    ensures AllAgree(HandleEvent(db, ev, now).0)
  {
    ReportAgrees(MarkProcessed(db, ev.eventKey), ev.report, now);
    hide ApplyReport, IngestFill, WellFormed, Agrees;
  }

  lemma RefusalAgrees(db: Db, c: ClientOrderId, reason: string, now: int)
    requires WellFormed(db) && AllAgree(db) && c in db.orders
    ensures AllAgree(Reject(db, c, reason, now).0) && AllAgree(FlagAmbiguous(db, c))
  {
    assert RowFits(db, c);
    var o := db.orders[c];
    if RejectVerdict(o.status) == Accepted(true) {
      RejectAgrees(o, reason, now);
      UpdateAgrees(db, RejectedRow(o, reason, now));
    }
    assert Agrees(o.(ambiguous := true));
    UpdateAgrees(db, o.(ambiguous := true));
    hide Agrees, Updated;
  }

  lemma PersistAgrees(db: Db, i: Intent, now: int)
    requires WellFormed(db) && AllAgree(db)
    ensures AllAgree(PersistIntent(db, i, now).0)
  {
    assert Agrees(FreshRow(i, now).(version := 1));
    hide Agrees;
  }

  lemma StepAgrees(db: Db, step: Step)
    requires WellFormed(db) && AllAgree(db)
    ensures AllAgree(After(db, step))
  {
    hide ApplyReport, HandleEvent, IngestFill, Reject, FlagAmbiguous, PersistIntent, WellFormed, Agrees;
    match step.op {
      case Persist(i) => PersistAgrees(db, i, step.now);
      case TakeReport(r) => ReportAgrees(db, r, step.now);
      case Refuse(c, reason) =>
        if c in db.orders {
          RefusalAgrees(db, c, reason, step.now);
        }
      case Flag(c) =>
        if c in db.orders {
          RefusalAgrees(db, c, "", step.now);
        }
      case TakeEvent(ev) => EventAgrees(db, ev, step.now);
      case _ =>
    }
  }

  /** From an empty ledger, over every run of every writer, whatever the exchange says: the fields of every order agree
      with one another. */
  lemma {:induction false} EveryOrderAgrees(steps: seq<Step>)
    ensures AllAgree(Run(EMPTY, steps))
    decreases |steps|
  {
    if steps != [] {
      var rest := steps[..|steps| - 1];
      EveryOrderAgrees(rest);
      StepAgrees(Run(EMPTY, rest), steps[|steps| - 1]);
    }
  }
}
