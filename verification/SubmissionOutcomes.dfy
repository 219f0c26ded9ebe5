/** What a submission leaves of its order, field by field, for each way in which the exchange can answer it
    (engine/application/order_service.py). */
module SubmissionOutcomes {
  import opened Common
  import opened OrderModel
  import OrderLaws
  import opened PositionModel
  import opened Ledger
  import opened LedgerLaws
  import opened Submission
  import opened ServiceRuns

  // ------------------------------------------------------------------ before the network call

  /** The order as it is on record when the exchange is asked: what the intent wants, stamped, and nothing else yet. */
  predicate AwaitsAnswer(o: OrderRow, i: Intent, now: int) {
    && o.clientOrderId == BotOrder(i.id) && o.intentId == i.id && o.symbol == i.symbol && o.side == i.side
    && o.purpose == i.purpose && o.requested == i.quantity
    && o.status == Submitting && o.submittedAt == Some(now)
    && NothingKnown(o) && !o.ambiguous && o.version == 1
  }

  /** Nothing has been heard from the exchange. */
  predicate NothingKnown(o: OrderRow) {
    && o.exchangeOrderId.None? && o.executed == 0.0 && o.cumQuote == 0.0 && o.average.None? && o.rejectReason.None?
    && o.acknowledgedAt.None? && o.lastUpdateMs.None? && o.terminalAt.None?
  }

  /** The control plane is told of the order as it is now. */
  ghost predicate IsAnnounced(db: Db, c: ClientOrderId) {
    c in db.orders && Message(OrderVersion(c, db.orders[c].version), OrderState(db.orders[c])) in db.outbox
  }

  ghost predicate SameBooks(db: Db, db': Db) {
    db'.fills == db.fills && db'.positions == db.positions && db'.processed == db.processed
  }

  lemma PersistLeaves(db: Db, i: Intent, now: int)
    requires WellFormed(db) && i.id !in db.intents
    ensures var db' := PersistIntent(db, i, now).0;
            && BotOrder(i.id) in db'.orders && AwaitsAnswer(db'.orders[BotOrder(i.id)], i, now)
            && i.id in db'.intents && SameBooks(db, db') && db'.byExchangeId == db.byExchangeId
            && forall c | c in db.orders :: c in db'.orders && db'.orders[c] == db.orders[c]
  {
    assert BotOrder(i.id) in db.orders ==> RowFits(db, BotOrder(i.id));
  }

  // ------------------------------------------------------------------ announcements

  lemma SoundAnnounces(db: Db, c: ClientOrderId)
    requires Sound(db) && c in db.orders && db.orders[c].version >= 1
    ensures IsAnnounced(db, c)
  {
    assert Queued(db.outbox, OrderVersion(c, db.orders[c].version));
    var m :| m in db.outbox && m.key == OrderVersion(c, db.orders[c].version);
    assert Truthful(db, m);
  }

  lemma {:induction false} RunStaysSound(db: Db, steps: seq<Step>)
    requires Sound(db)
    ensures Sound(Run(db, steps))
    decreases |steps|
  {
    if steps != [] {
      RunStaysSound(db, steps[..|steps| - 1]);
      StepSound(Run(db, steps[..|steps| - 1]), steps[|steps| - 1]);
    }
  }

  lemma SubmissionStaysSound(db: Db, i: Intent, now: int, outcome: Outcome, answer: Reach<Option<Report>>,
                             fills: Reach<seq<ExchangeFill>>, later: int, grace: nat)
    requires Sound(db)
    ensures Sound(Submitted(db, i, now, outcome, answer, fills, later, grace).0)
  {
    PersistSound(db, i, now);
    var db1 := PersistIntent(db, i, now).0;
    if i.id !in db.intents {
      ConclusionCommits(db1, BotOrder(i.id), outcome, answer, fills, later, grace);
      var db' := Concluded(db1, BotOrder(i.id), outcome, answer, fills, later, grace).0;
      var steps :| OrderUpdates(steps) && db' == Run(db1, steps);
      RunStaysSound(db1, steps);
    }
  }

  // ------------------------------------------------------------------ refused

  lemma RefusedRow(db: Db, c: ClientOrderId, reason: string, now: int)
    requires WellFormed(db) && c in db.orders && db.orders[c].status == Submitting
    ensures var (db', v) := Reject(db, c, reason, now);
            && v == Accepted(true) && c in db'.orders && SameBooks(db, db')
            && db'.orders[c] == db.orders[c].(status := Rejected, rejectReason := Some(reason), terminalAt := Some(now),
                                              version := db.orders[c].version + 1)
  {
    assert RowFits(db, c);
  }

  /** A definitive refusal ends the order as REJECTED with its reason and the time, executes nothing, and the control
      plane is told. */
  lemma RefusedSubmission(db: Db, i: Intent, now: int, reason: string, answer: Reach<Option<Report>>,
                          fills: Reach<seq<ExchangeFill>>, later: int, grace: nat)
    requires Sound(db) && i.id !in db.intents
    ensures var (db', ended, sent) := Submitted(db, i, now, Refused(reason), answer, fills, later, grace);
            var c := BotOrder(i.id);
            && ended == Returned && sent && c in db'.orders && SameBooks(db, db') && IsAnnounced(db', c)
            && var o := db'.orders[c];
               && o.status == Rejected && o.rejectReason == Some(reason) && o.terminalAt == Some(later) && o.version == 2
               && AwaitsAnswer(o.(status := Submitting, rejectReason := None, terminalAt := None, version := 1), i, now)
  {
    PersistLeaves(db, i, now);
    RefusedRow(PersistIntent(db, i, now).0, BotOrder(i.id), reason, later);
    SubmissionStaysSound(db, i, now, Refused(reason), answer, fills, later, grace);
    hide Sound, PersistIntent, Reject, WellFormed;
    SoundAnnounces(Submitted(db, i, now, Refused(reason), answer, fills, later, grace).0, BotOrder(i.id));
  }

  // ------------------------------------------------------------------ ambiguous

  lemma FlaggedRow(db: Db, c: ClientOrderId)
    requires WellFormed(db) && c in db.orders && db.orders[c].exchangeOrderId.None?
    ensures var db' := FlagAmbiguous(db, c);
            && c in db'.orders && SameBooks(db, db') && db'.byExchangeId == db.byExchangeId
            && db'.orders[c] == db.orders[c].(ambiguous := true, version := db.orders[c].version + 1)
            && Queued(db'.outbox, AmbiguousEvent(c))
  {
    assert RowFits(db, c);
    assert Queued(FlagAmbiguous(db, c).outbox, AmbiguousEvent(c)) by {
      EnqueueTells(Updated(db, db.orders[c].(ambiguous := true)).outbox, Message(AmbiguousEvent(c), Notice), Message(AmbiguousEvent(c), Notice));
    }
  }

  // ------------------------------------------------------------------ what the first report leaves

  /** An answer about the order, under an id that nothing else has, of a status that an exchange can answer with. */
  ghost predicate Answers(db: Db, c: ClientOrderId, r: Report) {
    && r.clientOrderId == c && CanTransition(Submitting, r.status)
    && (Present(r.exchangeOrderId) ==> r.exchangeOrderId.value !in db.byExchangeId)
  }

  /** The row is what the report says, stamped with the time of its arrival. */
  predicate ReportIn(o: OrderRow, r: Report, at: int) {
    && o.status == r.status
    && o.exchangeOrderId == (if Present(r.exchangeOrderId) then r.exchangeOrderId else None)
    && o.executed == Max(0.0, r.executedQty) && o.cumQuote == Max(0.0, r.cumQuoteQty)
    && (o.executed > 0.0 ==> o.average == Some(o.cumQuote / o.executed))
    && o.rejectReason == (if r.status == Rejected then r.rejectReason else None)
    && o.terminalAt == (if Terminal(r.status) then Some(at) else None)
    && o.acknowledgedAt == (if r.status == Rejected then None else Some(at))
    && o.lastUpdateMs == (if r.updateTimeMs.Some? && r.updateTimeMs.value != 0 then r.updateTimeMs else None)
  }

  /** The same order, whatever is known of it. */
  predicate SameOrder(a: OrderRow, b: OrderRow) {
    && b.clientOrderId == a.clientOrderId && b.intentId == a.intentId && b.symbol == a.symbol && b.side == a.side
    && b.purpose == a.purpose && b.requested == a.requested && b.submittedAt == a.submittedAt && b.ambiguous == a.ambiguous
  }

  lemma FirstReportRow(o: OrderRow, r: Report, now: int)
    requires o.status == Submitting && NothingKnown(o) && CanTransition(Submitting, r.status)
    ensures var m := Merge(o, r, now);
            && m.Merged? && m.changed && SameOrder(o, m.row) && m.row.version == o.version
            && ReportIn(m.row, r, now) && OrderLaws.Absorbs(m.row, r)
  {
  }

  lemma FirstReportTaken(db: Db, c: ClientOrderId, r: Report, now: int)
    requires WellFormed(db) && c in db.orders && db.orders[c].status == Submitting && NothingKnown(db.orders[c]) && Answers(db, c, r)
    ensures var (db', ended) := ReportTaken(db, r, now);
            && ended == Returned && SameBooks(db, db') && c in db'.orders
            && SameOrder(db.orders[c], db'.orders[c]) && db'.orders[c].version == db.orders[c].version + 1
            && ReportIn(db'.orders[c], r, now) && OrderLaws.Absorbs(db'.orders[c], r)
  {
    assert RowFits(db, c);
    FirstReportRow(db.orders[c], r, now);
    var o := Merge(db.orders[c], r, now).row;
    hide Merge, OrderLaws.Absorbs, ReportIn;
    assert ReportTaken(db, r, now).0 == Updated(db, o);
    assert Updated(db, o).orders[c] == o.(version := o.version + 1);
    AbsorbsAnyVersion(o, r, now);
  }

  lemma AbsorbsAnyVersion(o: OrderRow, r: Report, now: int)
    ensures var p := o.(version := o.version + 1);
            ReportIn(p, r, now) == ReportIn(o, r, now) && OrderLaws.Absorbs(p, r) == OrderLaws.Absorbs(o, r)
  {
  }

  // ------------------------------------------------------------------ the executions that come with it

  /** Every listed execution of the order is on record, and every new row tells one of them. */
  ghost predicate ExecutionsTaken(before: seq<Fill>, after: seq<Fill>, o: OrderRow, xfs: seq<ExchangeFill>) {
    && before <= after
    && (forall xf | xf in xfs && xf.clientOrderId == Some(o.clientOrderId) :: OnRecord(after, xf, o.clientOrderId))
    && (forall k | |before| <= k < |after| && after[k].order == o.clientOrderId :: exists xf :: xf in xfs && FillTells(after[k], xf, o))
  }

  ghost predicate OwnExecutions(c: ClientOrderId, xfs: seq<ExchangeFill>) {
    forall xf | xf in xfs :: xf.clientOrderId == Some(c)
  }

  lemma NothingTaken(fills: seq<Fill>, o: OrderRow)
    ensures ExecutionsTaken(fills, fills, o, [])
  {
  }

  lemma {:induction false} AllTaken(db: Db, c: ClientOrderId, xfs: seq<ExchangeFill>, now: int)
    requires WellFormed(db) && c in db.orders && OwnExecutions(c, xfs)
    ensures var db' := IngestAll(db, xfs, now);
            && db'.orders == db.orders && ExecutionsTaken(db.fills, db'.fills, db.orders[c], xfs)
    decreases |xfs|
  {
    hide ExecutionsTaken, OnRecord, FillTells, FillAnnounced, IngestFill;
    NothingTaken(db.fills, db.orders[c]);
    assert db.orders[c].clientOrderId == c by {
      assert RowFits(db, c);
    }
    if xfs != [] {
      var rest, last := xfs[..|xfs| - 1], xfs[|xfs| - 1];
      assert last in xfs && forall xf | xf in rest :: xf in xfs;
      AllTaken(db, c, rest, now);
      var mid := IngestAll(db, rest, now);
      FillIsTold(mid, last, c, now);
      assert xfs == rest + [last];
      OneMoreTaken(db.fills, mid.fills, IngestFill(mid, last, now).0.fills, db.orders[c], rest, last);
    }
  }

  lemma OneMoreTaken(before: seq<Fill>, mid: seq<Fill>, after: seq<Fill>, o: OrderRow, rest: seq<ExchangeFill>, last: ExchangeFill)
    requires ExecutionsTaken(before, mid, o, rest) && last.clientOrderId == Some(o.clientOrderId)
    requires if OnRecord(mid, last, o.clientOrderId) then after == mid
             else |after| == |mid| + 1 && after[..|mid|] == mid && FillTells(after[|mid|], last, o)
    ensures ExecutionsTaken(before, after, o, rest + [last])
  {
    if !OnRecord(mid, last, o.clientOrderId) {
      assert after[|mid|] in after && KeysOf(after[|mid|], last, o.clientOrderId);
      assert forall f | f in mid :: f in after;
    }
    forall xf | xf in rest + [last] && xf.clientOrderId == Some(o.clientOrderId)
      ensures OnRecord(after, xf, o.clientOrderId)
    {
      if xf in rest {
        var f :| f in mid && KeysOf(f, xf, o.clientOrderId);
        assert f in after;
      }
    }
    forall k | |before| <= k < |after| && after[k].order == o.clientOrderId
      ensures exists xf :: xf in rest + [last] && FillTells(after[k], xf, o)
    {
      if k < |mid| {
        var xf :| xf in rest && FillTells(mid[k], xf, o);
        assert xf in rest + [last];
      } else {
        assert last in rest + [last];
      }
    }
  }

  // ------------------------------------------------------------------ acknowledged

  /** An acknowledged order is what the acknowledgement says, with all the executions that came with it on record. */
  lemma AcknowledgedSubmission(db: Db, i: Intent, now: int, r: Report, xfs: seq<ExchangeFill>, answer: Reach<Option<Report>>,
                               fills: Reach<seq<ExchangeFill>>, later: int, grace: nat)
    requires Sound(db) && i.id !in db.intents && Answers(db, BotOrder(i.id), r) && OwnExecutions(BotOrder(i.id), xfs)
    ensures var (db', ended, sent) := Submitted(db, i, now, Acknowledged(r, xfs), answer, fills, later, grace);
            var c := BotOrder(i.id);
            && ended == Returned && sent && c in db'.orders && IsAnnounced(db', c)
            && var o := db'.orders[c];
               && SameOrder(PersistIntent(db, i, now).0.orders[c], o) && o.version == 2
               && ReportIn(o, r, later) && OrderLaws.Absorbs(o, r)
               && ExecutionsTaken(db.fills, db'.fills, o, xfs)
  {
    var c, db1 := BotOrder(i.id), PersistIntent(db, i, now).0;
    PersistLeaves(db, i, now);
    SubmissionStaysSound(db, i, now, Acknowledged(r, xfs), answer, fills, later, grace);
    hide Sound, PersistIntent, ReportTaken, WellFormed, ExecutionsTaken, ReportIn, OrderLaws.Absorbs;
    FirstReportTaken(db1, c, r, later);
    AllTaken(ReportTaken(db1, r, later).0, c, xfs, later);
    SoundAnnounces(Submitted(db, i, now, Acknowledged(r, xfs), answer, fills, later, grace).0, c);
  }

  // ------------------------------------------------------------------ ambiguous, resolved at once or later

  /** The order that was flagged, as it was when it was submitted. */
  function Unflagged(o: OrderRow): OrderRow {
    o.(ambiguous := false, version := 1)
  }

  lemma AmbiguousResolved(db: Db, c: ClientOrderId, answer: Reach<Option<Report>>, fills: Reach<seq<ExchangeFill>>, now: int, grace: nat)
    requires WellFormed(db) && c in db.orders && db.orders[c].status == Submitting && NothingKnown(db.orders[c])
    requires db.orders[c].clientOrderId == c && db.orders[c].submittedAt.Some?
    requires forall r | answer == Answered(Some(r)) :: Answers(db, c, r)
    requires fills.Answered? ==> OwnExecutions(c, fills.value)
    ensures var (db', res) := Resolve(db, db.orders[c], answer, fills, now, grace);
            var o := db.orders[c];
            && c in db'.orders
            && match answer
               case Unreachable => db' == db
               case Answered(None) =>
                 if now - o.submittedAt.value < grace then db' == db
                 else
                   && SameBooks(db, db') && NotFoundReason(db'.orders[c].rejectReason)
                   && db'.orders[c] == o.(status := Rejected, rejectReason := db'.orders[c].rejectReason, terminalAt := Some(now),
                                          version := o.version + 1)
               case Answered(Some(r)) =>
                 && SameOrder(o, db'.orders[c]) && db'.orders[c].version == o.version + 1
                 && ReportIn(db'.orders[c], r, now) && OrderLaws.Absorbs(db'.orders[c], r)
                 && (Present(r.exchangeOrderId) && fills.Answered? ==>
                       ExecutionsTaken(db.fills, db'.fills, db'.orders[c], fills.value))
  {
    match answer {
      case Unreachable =>
      case Answered(None) =>
        if now - db.orders[c].submittedAt.value >= grace {
          RefusedRow(db, c, NotFoundAfter(Age(db.orders[c], now)), now);
        }
      case Answered(Some(r)) =>
        FirstReportTaken(db, c, r, now);
        var db1 := ReportTaken(db, r, now).0;
        if fills.Answered? {
          AllTaken(db1, c, fills.value, now);
        }
    }
  }

  /** Nothing but the flag has happened to the order since it was submitted. */
  ghost predicate StillOpen(db: Db, db': Db, i: Intent, now: int, o: OrderRow) {
    SameBooks(db, db') && o.status == Submitting && AwaitsAnswer(Unflagged(o), i, now) && o.version == 2
  }

  /** Given up as not found, and otherwise as it was submitted. */
  ghost predicate GivenUpAt(db: Db, db': Db, i: Intent, now: int, later: int, o: OrderRow) {
    && SameBooks(db, db') && o.status == Rejected && NotFoundReason(o.rejectReason) && o.terminalAt == Some(later) && o.version == 3
    && AwaitsAnswer(Unflagged(o.(status := Submitting, rejectReason := None, terminalAt := None)), i, now)
  }

  /** What the exchange has answered, with the executions that the trade query brought. */
  ghost predicate AnsweredBy(db: Db, db': Db, r: Report, fills: Reach<seq<ExchangeFill>>, later: int, o: OrderRow) {
    && ReportIn(o, r, later) && OrderLaws.Absorbs(o, r) && o.version == 3
    && (Present(r.exchangeOrderId) && fills.Answered? ==> ExecutionsTaken(db.fills, db'.fills, o, fills.value))
  }

  ghost predicate AmbiguousEnd(db: Db, db': Db, i: Intent, now: int, answer: Reach<Option<Report>>,
                               fills: Reach<seq<ExchangeFill>>, later: int, grace: nat, o: OrderRow) {
    match answer
    case Unreachable => StillOpen(db, db', i, now, o)
    case Answered(None) => if later - now < grace then StillOpen(db, db', i, now, o) else GivenUpAt(db, db', i, now, later, o)
    case Answered(Some(r)) => AnsweredBy(db, db', r, fills, later, o)
  }

  lemma AmbiguousEnds(db: Db, flagged: Db, i: Intent, now: int, answer: Reach<Option<Report>>, fills: Reach<seq<ExchangeFill>>,
                      later: int, grace: nat)
    requires WellFormed(flagged) && BotOrder(i.id) in flagged.orders && SameBooks(db, flagged)
    requires flagged.byExchangeId == db.byExchangeId && AwaitsAnswer(Unflagged(flagged.orders[BotOrder(i.id)]), i, now)
    requires flagged.orders[BotOrder(i.id)].ambiguous && flagged.orders[BotOrder(i.id)].version == 2
    requires forall r | answer == Answered(Some(r)) :: Answers(db, BotOrder(i.id), r)
    requires fills.Answered? ==> OwnExecutions(BotOrder(i.id), fills.value)
    ensures var db' := Resolve(flagged, flagged.orders[BotOrder(i.id)], answer, fills, later, grace).0;
            && BotOrder(i.id) in db'.orders && db'.orders[BotOrder(i.id)].ambiguous
            && AmbiguousEnd(db, db', i, now, answer, fills, later, grace, db'.orders[BotOrder(i.id)])
  {
    hide Resolve, WellFormed, ExecutionsTaken, OrderLaws.Absorbs, OwnExecutions, ReportIn;
    AmbiguousResolved(flagged, BotOrder(i.id), answer, fills, later, grace);
  }

  /** An ambiguous submission is flagged, announced and raises an alert. It stays open as it is while the exchange cannot
      be asked, or knows no such order within the grace period; it is given up when it knows none after that; else
      it is what the exchange answers. */
  lemma AmbiguousSubmission(db: Db, i: Intent, now: int, answer: Reach<Option<Report>>, fills: Reach<seq<ExchangeFill>>,
                            later: int, grace: nat)
    requires Sound(db) && i.id !in db.intents
    requires forall r | answer == Answered(Some(r)) :: Answers(db, BotOrder(i.id), r)
    requires fills.Answered? ==> OwnExecutions(BotOrder(i.id), fills.value)
    ensures var (db', ended, sent) := Submitted(db, i, now, Ambiguous, answer, fills, later, grace);
            var c := BotOrder(i.id);
            && sent && c in db'.orders && db'.orders[c].ambiguous && IsAnnounced(db', c) && Queued(db'.outbox, AmbiguousEvent(c))
            && AmbiguousEnd(db, db', i, now, answer, fills, later, grace, db'.orders[c])
            && (db'.orders[c].status == Submitting <==> answer.Unreachable? || (answer == Answered(None) && later - now < grace))
  {
    var c := BotOrder(i.id);
    var db' := AmbiguousLeaves(db, i, now, answer, fills, later, grace);
    assert WellFormed(db');
    hide *;
    OpenExactly(db, db', i, now, answer, fills, later, grace, db'.orders[c]);
  }

  lemma OpenExactly(db: Db, db': Db, i: Intent, now: int, answer: Reach<Option<Report>>, fills: Reach<seq<ExchangeFill>>,
                    later: int, grace: nat, o: OrderRow)
    requires forall r | answer == Answered(Some(r)) :: Answers(db, BotOrder(i.id), r)
    requires AmbiguousEnd(db, db', i, now, answer, fills, later, grace, o)
    ensures o.status == Submitting <==> answer.Unreachable? || (answer == Answered(None) && later - now < grace)
    ensures o.version >= 1
  {
    hide ExecutionsTaken, OrderLaws.Absorbs, SameBooks, NothingKnown;
    assert !CanTransition(Submitting, Submitting);
    if answer.Answered? && answer.value.Some? {
      assert Answers(db, BotOrder(i.id), answer.value.value);
    }
  }

  lemma AmbiguousLeaves(db: Db, i: Intent, now: int, answer: Reach<Option<Report>>, fills: Reach<seq<ExchangeFill>>,
                        later: int, grace: nat) returns (db': Db)
    requires Sound(db) && i.id !in db.intents
    requires forall r | answer == Answered(Some(r)) :: Answers(db, BotOrder(i.id), r)
    requires fills.Answered? ==> OwnExecutions(BotOrder(i.id), fills.value)
    ensures db' == Submitted(db, i, now, Ambiguous, answer, fills, later, grace).0
    ensures Submitted(db, i, now, Ambiguous, answer, fills, later, grace).2
    ensures var c := BotOrder(i.id);
            && c in db'.orders && db'.orders[c].ambiguous && IsAnnounced(db', c) && Queued(db'.outbox, AmbiguousEvent(c))
            && AmbiguousEnd(db, db', i, now, answer, fills, later, grace, db'.orders[c])
  {
    var c := BotOrder(i.id);
    assert WellFormed(db);
    hide Sound, Submitted, Resolve, PersistIntent, FlagAmbiguous, WellFormed, AwaitsAnswer, ExecutionsTaken,
         OrderLaws.Absorbs, Queued, NothingKnown, Answers, OwnExecutions, SameBooks;
    var flagged := FlaggedOrder(db, i, now);
    SubmissionStaysSound(db, i, now, Ambiguous, answer, fills, later, grace);
    AmbiguousIsResolved(db, i, now, answer, fills, later, grace);
    ResolutionKeepsOutbox(flagged, flagged.orders[c], answer, fills, later, grace);
    AmbiguousEnds(db, flagged, i, now, answer, fills, later, grace);
    db' := Submitted(db, i, now, Ambiguous, answer, fills, later, grace).0;
    QueuedStays(flagged.outbox, db'.outbox, AmbiguousEvent(c));
    OpenExactly(db, db', i, now, answer, fills, later, grace, db'.orders[c]);
    SoundAnnounces(db', c);
  }

  lemma QueuedStays(a: seq<Message>, b: seq<Message>, key: Key)
    requires a <= b && Queued(a, key)
    ensures Queued(b, key)
  {
    var m :| m in a && m.key == key;
    assert m in b;
  }

  /** The tables between the flag and the query. */
  lemma FlaggedOrder(db: Db, i: Intent, now: int) returns (flagged: Db)
    requires WellFormed(db) && i.id !in db.intents
    ensures WellFormed(flagged) && flagged == FlagAmbiguous(PersistIntent(db, i, now).0, BotOrder(i.id))
    ensures BotOrder(i.id) in flagged.orders && SameBooks(db, flagged) && flagged.byExchangeId == db.byExchangeId
    ensures var o := flagged.orders[BotOrder(i.id)];
            AwaitsAnswer(Unflagged(o), i, now) && o.ambiguous && o.version == 2
    ensures Queued(flagged.outbox, AmbiguousEvent(BotOrder(i.id)))
  {
    PersistLeaves(db, i, now);
    FlaggedRow(PersistIntent(db, i, now).0, BotOrder(i.id));
    flagged := FlagAmbiguous(PersistIntent(db, i, now).0, BotOrder(i.id));
  }

  lemma AmbiguousIsResolved(db: Db, i: Intent, now: int, answer: Reach<Option<Report>>, fills: Reach<seq<ExchangeFill>>,
                            later: int, grace: nat)
    requires WellFormed(db) && i.id !in db.intents
    ensures var c := BotOrder(i.id);
            var db1 := PersistIntent(db, i, now).0;
            && c in db1.orders && c in FlagAmbiguous(db1, c).orders && FlagAmbiguous(db1, c).orders[c].clientOrderId == c
            && var res := Submitted(db, i, now, Ambiguous, answer, fills, later, grace);
               res.2 && res.0 == Resolve(FlagAmbiguous(db1, c), FlagAmbiguous(db1, c).orders[c], answer, fills, later, grace).0
  {
    PersistLeaves(db, i, now);
    FlaggedRow(PersistIntent(db, i, now).0, BotOrder(i.id));
    hide PersistIntent, FlagAmbiguous, Resolve, WellFormed;
  }

  lemma {:induction false} IngestKeepsOutbox(db: Db, xfs: seq<ExchangeFill>, now: int)
    requires WellFormed(db)
    ensures db.outbox <= IngestAll(db, xfs, now).outbox
    decreases |xfs|
  {
    if xfs != [] {
      IngestKeepsOutbox(db, xfs[..|xfs| - 1], now);
    }
  }

  lemma ResolutionKeepsOutbox(db: Db, o: OrderRow, answer: Reach<Option<Report>>, fills: Reach<seq<ExchangeFill>>, now: int, grace: nat)
    requires WellFormed(db) && o.clientOrderId in db.orders
    ensures db.outbox <= Resolve(db, o, answer, fills, now, grace).0.outbox
  {
    if answer.Answered? && answer.value.Some? && fills.Answered? {
      IngestKeepsOutbox(ReportTaken(db, answer.value.value, now).0, fills.value, now);
    }
    hide Reject, ApplyReport, IngestAll, WellFormed;
  }
}
