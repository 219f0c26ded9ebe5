/** The order decisions of the trading worker, interleaved with everything the other writers commit
    (engine/application/trading_cycle.py). Each read of the store is a step of its own. */
module TradingCycle {
  import opened Common
  import opened OrderModel
  import opened PositionModel
  import opened Ledger
  import opened LedgerLaws
  import opened Attempts
  import opened SellExposure

  /** The position as it was read: a quantity to sell and the moment it was opened. `resting` is the attempt
      number of the stop that was live then and could still sell; the code does not need to know it. */
  datatype Plan = Plan(qty: real, since: Option<int>, resting: Option<nat>)

  /** Where the cycle stands. */
  datatype Stage =
    | Idle
    | Cleared
    | Holding(plan: Plan)
    | StopsDown
    | Choosing(decision: Decision, plan: Plan, attempt: nat)
    | Chosen(decision: Decision, plan: Plan, attempt: nat)
    | Entered(order: ClientOrderId)

  datatype World = World(db: Db, stage: Stage)

  datatype Act =
    | Other(step: Step)
    | SeesNothingInFlight
    | ReadsPosition(plan: Plan)
    | SeesNoStop
    | SeesStopsDown
    | ReadsForExit(purpose: Purpose, qty: real)
    | DecidesEntry(stem: string, qty: real)
    | LooksAtAttempt
    | Submits(now: int)
    | SeesEntryFilled
    | GivesUp

  ghost predicate OnlyStopsLive(db: Db) {
    forall c | c in db.orders :: Live(db.orders[c]) ==> db.orders[c].purpose.ProtectiveStop?
  }

  ghost predicate NoStopLive(db: Db) {
    forall c | c in db.orders :: Live(db.orders[c]) ==> !db.orders[c].purpose.ProtectiveStop?
  }

  ghost predicate NothingLive(db: Db) {
    forall c | c in db.orders :: !Live(db.orders[c])
  }

  /** Every SELL order that ended has all its executions on record. */
  ghost predicate AllRecorded(db: Db) {
    forall c | c in db.orders :: !Live(db.orders[c]) ==> Unsold(db, c) == 0.0
  }

  function Resting(plan: Plan): Option<ClientOrderId>
    requires plan.resting.Some? ==> plan.resting.value < 10
  {
    if plan.resting.None? then None else Some(OrderOf(StopDecision(plan.since), plan.resting.value))
  }

  /** What the worker checks itself before each step. */
  ghost predicate Allowed(w: World, s: Symbol, a: Act) {
    match a
    case Other(step) => WellFormed(w.db) && !step.op.Persist?
    case SeesNothingInFlight => w.stage.Idle? && OnlyStopsLive(w.db)
    case ReadsPosition(plan) => (w.stage.Cleared? || w.stage.Holding?) && ReadsPositionOf(w.db, s, plan)
    case SeesNoStop => w.stage.Holding? && NoStopLive(w.db)
    case SeesStopsDown => (w.stage.Cleared? || w.stage.Holding?) && NoStopLive(w.db)
    case ReadsForExit(purpose, qty) => w.stage.StopsDown? && purpose in {Exit, StopExit} && 0.0 < qty <= PositionOf(w.db, s).qty
    case DecidesEntry(_, _) => w.stage.Cleared?
    case LooksAtAttempt => w.stage.Choosing?
    case Submits(_) => w.stage.Chosen? && w.stage.attempt < 10
    case SeesEntryFilled => w.stage.Entered? && w.stage.order in w.db.orders && w.db.orders[w.stage.order].status == Filled
    case GivesUp => true
  }

  predicate ReadsPositionOf(db: Db, s: Symbol, plan: Plan) {
    0.0 < plan.qty <= PositionOf(db, s).qty && plan.since == PositionOf(db, s).openedAt
  }

  /** What was resting when the position was read: nothing that may still sell, or the stop of this position. */
  ghost predicate RestsTruly(db: Db, plan: Plan) {
    match plan.resting
    case None => Exposure(db) == 0.0
    case Some(j) => j < 10 && Resting(plan).value in db.orders && Live(db.orders[Resting(plan).value])
  }

  /** A position has been read and not been acted on yet. */
  predicate PlanHeld(stage: Stage) {
    stage.Holding? || ((stage.Choosing? || stage.Chosen?) && !stage.decision.purpose.Entry?)
  }

  /** What it trusts and does not check: the exchange, that ended sales are on record when a position is read, and that
      no rebuild renames the position before the plan is acted on. */
  ghost predicate Trusted(w: World, s: Symbol, a: Act)
    requires WellFormed(w.db)
  {
    match a
    case Other(step) => Honest(w.db, s, step) && (Renames(w.db, s, step) ==> !PlanHeld(w.stage))
    case ReadsPosition(plan) => AllRecorded(w.db) && RestsTruly(w.db, plan)
    case ReadsForExit(_, _) => AllRecorded(w.db)
    case _ => true
  }

  ghost predicate Enabled(w: World, s: Symbol, a: Act) {
    Allowed(w, s, a) && WellFormed(w.db) && Trusted(w, s, a)
  }

  function OrderIntent(s: Symbol, d: Decision, plan: Plan, attempt: nat): Intent
    requires attempt < 10
  {
    Intent(IntentId(d, attempt), s, SideOf(d.purpose), d.purpose, plan.qty)
  }

  function Next(w: World, s: Symbol, a: Act): (w': World)
    requires WellFormed(w.db) && Allowed(w, s, a)
    ensures WellFormed(w'.db)
  {
    match a
    case Other(step) => w.(db := After(w.db, step))
    case SeesNothingInFlight => w.(stage := Cleared)
    case ReadsPosition(plan) => w.(stage := Holding(plan))
    case SeesNoStop => w.(stage := Choosing(StopDecision(w.stage.plan.since), w.stage.plan, 0))
    case SeesStopsDown => w.(stage := StopsDown)
    case ReadsForExit(purpose, qty) =>
      var since := PositionOf(w.db, s).openedAt;
      w.(stage := Choosing(Decision(Epoch(since), purpose), Plan(qty, since, None), 0))
    case DecidesEntry(stem, qty) => w.(stage := Choosing(Decision(stem, Entry), Plan(qty, None, None), 0))
    case LooksAtAttempt =>
      var (d, k) := (w.stage.decision, w.stage.attempt);
      w.(stage := if k >= MaxAttempts(d.purpose) then Idle
                  else if Spent(w.db, d, k) then Choosing(d, w.stage.plan, k + 1)
                  else Chosen(d, w.stage.plan, k))
    case Submits(now) =>
      var d := w.stage.decision;
      World(PersistIntent(w.db, OrderIntent(s, d, w.stage.plan, w.stage.attempt), now).0,
            if d.purpose.Entry? then Entered(OrderOf(d, w.stage.attempt)) else Idle)
    case SeesEntryFilled => w.(stage := Cleared)
    case GivesUp => w.(stage := Idle)
  }

  // ------------------------------------------------------------------ what a plan may rely on

  /** Nothing but the resting stop can have sold since the position was read, and as long as it has not,
      the quantity is still there and the position is still the same. */
  ghost predicate Backed(db: Db, s: Symbol, plan: Plan) {
    && 0.0 < plan.qty
    && (plan.resting.Some? ==>
          plan.resting.value < 10 && IntentId(StopDecision(plan.since), plan.resting.value) in db.intents)
    && ExposureBut(db, Resting(plan)) <= 0.0
    && (plan.resting.None? || RecordedQty(db.fills, Resting(plan).value) == 0.0 ==> Untouched(db, s, plan))
  }

  ghost predicate Untouched(db: Db, s: Symbol, plan: Plan) {
    PositionOf(db, s).qty >= plan.qty && PositionOf(db, s).openedAt == plan.since
  }

  ghost predicate StageFits(db: Db, s: Symbol, stage: Stage) {
    match stage
    case Idle => true
    case Cleared => OnlyStopsLive(db)
    case Holding(plan) => OnlyStopsLive(db) && Backed(db, s, plan)
    case StopsDown => NothingLive(db)
    case Choosing(d, plan, k) => k <= MaxAttempts(d.purpose) && SpentBelow(db, d, k) && PlanFits(db, s, d, plan)
    case Chosen(d, plan, k) => k < MaxAttempts(d.purpose) && SpentBelow(db, d, k) && PlanFits(db, s, d, plan)
    case Entered(c) => forall x | x in db.orders && x != c :: Live(db.orders[x]) ==> db.orders[x].purpose.ProtectiveStop?
  }

  ghost predicate PlanFits(db: Db, s: Symbol, d: Decision, plan: Plan) {
    if d.purpose.Entry? then OnlyStopsLive(db)
    else
      && NothingLive(db) && Backed(db, s, plan)
      && d.stem == Epoch(plan.since)
      && (plan.resting.Some? ==> d.purpose.ProtectiveStop?)
  }

  ghost predicate Invariant(w: World, s: Symbol) {
    Safe(w.db, s) && StageFits(w.db, s, w.stage)
  }

  // ------------------------------------------------------------------ the other writers

  lemma RestingIsSell(db: Db, s: Symbol, plan: Plan)
    requires Safe(db, s) && plan.resting.Some? && plan.resting.value < 10
    requires IntentId(StopDecision(plan.since), plan.resting.value) in db.intents
    ensures var c := Resting(plan).value;
            c in db.orders && db.orders[c].side == Sell && SellFits(db, s, c) && c in db.created
  {
    var d, k := StopDecision(plan.since), plan.resting.value;
    assert Disciplined(db, d, k);
    assert SellFits(db, s, OrderOf(d, k));
    assert RowFits(db, OrderOf(d, k));
  }

  lemma LiveMoves(db: Db, db': Db, s: Symbol, c: ClientOrderId)
    requires Moves(db, db', s) && c in db'.orders && Live(db'.orders[c])
    ensures Live(db.orders[c]) && db'.orders[c].purpose == db.orders[c].purpose
  {
    assert RowMoves(db, db', c);
  }

  lemma BackedMoves(db: Db, db': Db, s: Symbol, plan: Plan)
    requires Safe(db, s) && Moves(db, db', s) && Backed(db, s, plan)
    ensures Backed(db', s, plan)
  {
    forall c
      ensures Unsold(db', c) <= Unsold(db, c)
    {
      UnsoldMoves(db, db', s, c);
    }
    ExposureShrinks(db, db', db.created, Resting(plan));
  }

  /** A sale that is not the resting stop's has nothing left to sell. */
  lemma StrangersSellNothing(db: Db, f: Fill, s: Symbol, plan: Plan)
    requires Safe(db, s) && Lands(db, f, s) && Backed(db, s, plan)
    requires f.side == Sell && Resting(plan) != Some(f.order)
    ensures f.qty == 0.0
  {
    SafeClaims(db, s);
    assert RowFits(db, f.order) && SellFits(db, s, f.order);
    ClaimWithin(db, db.created, Resting(plan), f.order);
  }

  lemma BackedLands(db: Db, f: Fill, s: Symbol, plan: Plan)
    requires Safe(db, s) && Lands(db, f, s) && Backed(db, s, plan)
    ensures Backed(FillRecorded(db, f), s, plan)
  {
    var db' := FillRecorded(db, f);
    ExposureLands(db, f, s, Resting(plan));
    PositionLands(db, f, s);
    if plan.resting.Some? {
      RestingIsSell(db, s, plan);
      RecordedAppend(db.fills, f, Resting(plan).value);
    }
    if f.side == Sell && Resting(plan) != Some(f.order) {
      StrangersSellNothing(db, f, s, plan);
    }
  }

  lemma PlanMoves(db: Db, db': Db, s: Symbol, d: Decision, plan: Plan)
    requires Safe(db, s) && Moves(db, db', s) && PlanFits(db, s, d, plan)
    ensures PlanFits(db', s, d, plan)
  {
    forall c | c in db'.orders && Live(db'.orders[c])
      ensures Live(db.orders[c]) && db'.orders[c].purpose == db.orders[c].purpose
    {
      LiveMoves(db, db', s, c);
    }
    if !d.purpose.Entry? {
      BackedMoves(db, db', s, plan);
    }
  }

  lemma StageMoves(db: Db, db': Db, s: Symbol, stage: Stage)
    requires Safe(db, s) && Moves(db, db', s) && StageFits(db, s, stage)
    ensures StageFits(db', s, stage)
  {
    forall c | c in db'.orders && Live(db'.orders[c])
      ensures Live(db.orders[c]) && db'.orders[c].purpose == db.orders[c].purpose
    {
      LiveMoves(db, db', s, c);
    }
    match stage {
      case Holding(plan) => BackedMoves(db, db', s, plan);
      case Choosing(d, plan, k) =>
        SpentStays(db, db', s, d, k);
        PlanMoves(db, db', s, d, plan);
      case Chosen(d, plan, k) =>
        SpentStays(db, db', s, d, k);
        PlanMoves(db, db', s, d, plan);
      case _ =>
    }
  }

  lemma PlanLands(db: Db, f: Fill, s: Symbol, d: Decision, plan: Plan)
    requires Safe(db, s) && Lands(db, f, s) && PlanFits(db, s, d, plan)
    ensures PlanFits(FillRecorded(db, f), s, d, plan)
  {
    if !d.purpose.Entry? {
      BackedLands(db, f, s, plan);
    }
  }

  lemma SpentLands(db: Db, f: Fill, s: Symbol, d: Decision, k: nat)
    requires Safe(db, s) && Lands(db, f, s) && k <= 10 && SpentBelow(db, d, k)
    ensures SpentBelow(FillRecorded(db, f), d, k)
  {
    forall j | 0 <= j < k
      ensures Spent(FillRecorded(db, f), d, j)
    {
      assert Spent(db, d, j);
    }
  }

  lemma StageLands(db: Db, f: Fill, s: Symbol, stage: Stage)
    requires Safe(db, s) && Lands(db, f, s) && StageFits(db, s, stage)
    ensures StageFits(FillRecorded(db, f), s, stage)
  {
    match stage {
      case Holding(plan) => BackedLands(db, f, s, plan);
      case Choosing(d, plan, k) =>
        SpentLands(db, f, s, d, k);
        PlanLands(db, f, s, d, plan);
      case Chosen(d, plan, k) =>
        SpentLands(db, f, s, d, k);
        PlanLands(db, f, s, d, plan);
      case _ =>
    }
  }

  /** Where no plan is held, the position does not matter. */
  lemma StageStays(db: Db, db': Db, s: Symbol, stage: Stage)
    requires db'.orders == db.orders && StageFits(db, s, stage) && !PlanHeld(stage)
    ensures StageFits(db', s, stage)
  {
    match stage {
      case Choosing(d, _, k) => SpentByOrders(db, db', d, k);
      case Chosen(d, _, k) => SpentByOrders(db, db', d, k);
      case _ =>
    }
  }

  lemma OtherKeeps(w: World, s: Symbol, step: Step)
    requires Invariant(w, s) && Enabled(w, s, Other(step))
    ensures Invariant(Next(w, s, Other(step)), s)
  {
    if Renames(w.db, s, step) {
      RenameKeeps(w.db, s);
      StageStays(w.db, PositionRebuilt(w.db, s), s, w.stage);
    } else {
      var mid, f := StepEffect(w.db, step, s);
      MovesKeep(w.db, mid, s);
      StageMoves(w.db, mid, s, w.stage);
      if f.Some? {
        FillKeeps(mid, f.value, s);
        StageLands(mid, f.value, s, w.stage);
      }
    }
  }

  // ------------------------------------------------------------------ the worker's reads

  /** With nothing in flight but stops, only the live stop, if any, still claims something. */
  lemma ReadIsBacked(db: Db, s: Symbol, plan: Plan)
    requires Safe(db, s) && OnlyStopsLive(db) && AllRecorded(db)
    requires ReadsPositionOf(db, s, plan) && RestsTruly(db, plan)
    ensures Backed(db, s, plan)
  {
    if plan.resting.Some? {
      var c := Resting(plan).value;
      assert RowFits(db, c) && SellFits(db, s, c);
      forall x | x in db.created && x != c
        ensures Unsold(db, x) == 0.0
      {
        assert SellFits(db, s, x);
      }
      ExposureOfNothing(db, db.created, Resting(plan));
    }
  }

  /** Whatever is read, one of the two accounts of what is resting is true of it. */
  lemma RestingIsKnown(db: Db, s: Symbol) returns (resting: Option<nat>)
    requires Safe(db, s) && OnlyStopsLive(db) && AllRecorded(db) && PositionOf(db, s).qty > 0.0
    ensures RestsTruly(db, Plan(PositionOf(db, s).qty, PositionOf(db, s).openedAt, resting))
  {
    if c :| c in db.orders && Live(db.orders[c]) && Unsold(db, c) > 0.0 {
      assert StopFits(db, s, c);
      var j: nat :| j < 10 && c == OrderOf(StopDecision(PositionOf(db, s).openedAt), j);
      resting := Some(j);
    } else {
      resting := None;
      forall c | c in db.created
        ensures Unsold(db, c) == 0.0
      {
        assert SellFits(db, s, c);
      }
      ExposureOfNothing(db, db.created, None);
    }
  }

  lemma NothingLiveIsSettled(db: Db, s: Symbol)
    requires Safe(db, s) && NothingLive(db) && AllRecorded(db)
    ensures Exposure(db) == 0.0
  {
    ExposureOfNothing(db, db.created, None);
  }

  // ------------------------------------------------------------------ the submission

  /** When the plan's attempt is really new, the resting stop was used up without selling anything. */
  lemma PlanHolds(db: Db, s: Symbol, d: Decision, plan: Plan, k: nat)
    requires Safe(db, s) && PlanFits(db, s, d, plan) && !d.purpose.Entry?
    requires k < 10 && SpentBelow(db, d, k) && IntentId(d, k) !in db.intents
    ensures Exposure(db) <= 0.0 && Untouched(db, s, plan)
  {
    if plan.resting.Some? {
      var j, c := plan.resting.value, Resting(plan).value;
      RestingIsSell(db, s, plan);
      assert d == StopDecision(plan.since);
      assert Disciplined(db, d, j);
      assert OrderOf(d, k) in db.orders ==> RowFits(db, OrderOf(d, k));
      assert j > k ==> Spent(db, d, k);
      assert Spent(db, d, j);
      assert Unsold(db, c) == 0.0 && RecordedQty(db.fills, c) == 0.0;
      SameWithout(db, db.created, c);
    }
  }

  lemma {:induction false} SameWithout(db: Db, cs: seq<ClientOrderId>, c: ClientOrderId)
    requires Unsold(db, c) == 0.0
    ensures ExposureOf(db, cs, None) == ExposureOf(db, cs, Some(c))
    decreases |cs|
  {
    if cs != [] {
      SameWithout(db, cs[..|cs| - 1], c);
    }
  }

  ghost predicate Created(db: Db, i: Intent, now: int, db': Db) {
    WellFormed(db) && i.id !in db.intents && db' == PersistIntent(db, i, now).0
  }

  lemma CreatedTables(db: Db, i: Intent, now: int, db': Db)
    requires Created(db, i, now, db')
    ensures BotOrder(i.id) !in db.orders
    ensures db'.orders == db.orders[BotOrder(i.id) := FreshRow(i, now).(version := 1)]
    ensures db'.created == db.created + [BotOrder(i.id)]
    ensures db'.intents == db.intents + {i.id} && db'.fills == db.fills && db'.positions == db.positions
  {
    assert BotOrder(i.id) in db.orders ==> RowFits(db, BotOrder(i.id));
  }

  /** One more order claims what it asks for. */
  lemma CreatedExposure(db: Db, s: Symbol, i: Intent, now: int, db': Db)
    requires Tidy(db, s) && Created(db, i, now, db')
    ensures Exposure(db') == Exposure(db) + (if i.side == Sell then i.quantity else 0.0)
    ensures RecordedQty(db'.fills, BotOrder(i.id)) == 0.0
  {
    CreatedTables(db, i, now, db');
    var c := BotOrder(i.id);
    forall f | f in db.fills
      ensures f.order != c
    {
      assert FillFits(db, f);
    }
    RecordedOfNone(db.fills, c);
    assert db'.created[..|db'.created| - 1] == db.created;
    forall x | x in db.created
      ensures Unsold(db', x) == Unsold(db, x)
    {
    }
    ExposureShrinks(db, db', db.created, None);
    ExposureShrinks(db', db, db.created, None);
  }

  lemma CreatedDiscipline(db: Db, s: Symbol, d: Decision, plan: Plan, k: nat, now: int, db': Db, e: Decision, j: nat)
    requires Safe(db, s) && k < MaxAttempts(d.purpose) && SpentBelow(db, d, k) && j < 10
    requires Created(db, OrderIntent(s, d, plan, k), now, db')
    ensures Disciplined(db', e, j)
  {
    CreatedTables(db, OrderIntent(s, d, plan, k), now, db');
    assert Disciplined(db, e, j);
    if IntentId(e, j) == IntentId(d, k) {
      IntentIdInjective(e, j, d, k);
    }
    assert forall x: nat | x < 10 :: Spent(db, e, x) ==> Spent(db', e, x);
  }

  /** A new order, in an account where it leaves the exposure within the position. */
  lemma CreatedKeeps(db: Db, s: Symbol, d: Decision, plan: Plan, k: nat, now: int, db': Db)
    requires Safe(db, s) && k < MaxAttempts(d.purpose) && SpentBelow(db, d, k)
    requires Created(db, OrderIntent(s, d, plan, k), now, db')
    requires !d.purpose.Entry? ==>
               && NothingLive(db) && 0.0 <= plan.qty && Exposure(db) + plan.qty <= PositionOf(db, s).qty
               && d.stem == Epoch(plan.since) && PositionOf(db, s).openedAt == plan.since
    ensures Safe(db', s)
  {
    var i := OrderIntent(s, d, plan, k);
    var c := OrderOf(d, k);
    CreatedTables(db, i, now, db');
    CreatedExposure(db, s, i, now, db');
    assert PositionOf(db', s) == PositionOf(db, s);
    if d.purpose.ProtectiveStop? {
      assert d == StopDecision(PositionOf(db', s).openedAt) && k < 10;
    }
    forall x | x in db'.orders
      ensures SellFits(db', s, x) && StopFits(db', s, x)
    {
      if x in db.orders {
        assert SellFits(db, s, x) && StopFits(db, s, x);
        assert Unsold(db', x) == Unsold(db, x);
      }
    }
    forall f | f in db'.fills
      ensures FillFits(db', f)
    {
      assert FillFits(db, f);
    }
    forall e, j: nat | j < 10
      ensures Disciplined(db', e, j)
    {
      CreatedDiscipline(db, s, d, plan, k, now, db', e, j);
    }
  }

  /** Beside an entry only stops are live. */
  lemma EntryIsAlone(db: Db, s: Symbol, d: Decision, plan: Plan, k: nat, now: int, db': Db)
    requires d.purpose.Entry? && k < MaxAttempts(d.purpose) && OnlyStopsLive(db) && WellFormed(db)
    requires db' == PersistIntent(db, OrderIntent(s, d, plan, k), now).0
    ensures StageFits(db', s, Entered(OrderOf(d, k)))
  {
    var i := OrderIntent(s, d, plan, k);
    if i.id !in db.intents {
      CreatedTables(db, i, now, db');
    }
    hide PersistIntent;
  }

  lemma SubmitKeeps(w: World, s: Symbol, now: int)
    requires Invariant(w, s) && Enabled(w, s, Submits(now))
    ensures Invariant(Next(w, s, Submits(now)), s)
  {
    var (d, plan, k) := (w.stage.decision, w.stage.plan, w.stage.attempt);
    var i := OrderIntent(s, d, plan, k);
    var db' := PersistIntent(w.db, i, now).0;
    assert i.id in w.db.intents ==> db' == w.db;
    if d.purpose.Entry? {
      EntryIsAlone(w.db, s, d, plan, k, now, db');
    }
    if i.id !in w.db.intents {
      if !d.purpose.Entry? {
        PlanHolds(w.db, s, d, plan, k);
      }
      hide PersistIntent, Safe, Exposure, SpentBelow;
      CreatedKeeps(w.db, s, d, plan, k, now, db');
    }
  }

  lemma ExitReadKeeps(w: World, s: Symbol, purpose: Purpose, qty: real)
    requires Invariant(w, s) && Enabled(w, s, ReadsForExit(purpose, qty))
    ensures Invariant(Next(w, s, ReadsForExit(purpose, qty)), s)
  {
    NothingLiveIsSettled(w.db, s);
  }

  lemma LookKeeps(w: World, s: Symbol)
    requires Invariant(w, s) && Allowed(w, s, LooksAtAttempt)
    ensures Invariant(Next(w, s, LooksAtAttempt), s)
  {
    hide Safe, PlanFits, Spent;
  }

  /** The other looks at the orders change nothing but the stage. */
  lemma SightKeeps(w: World, s: Symbol, a: Act)
    requires Invariant(w, s) && Allowed(w, s, a)
    requires a.SeesNothingInFlight? || a.SeesNoStop? || a.SeesStopsDown? || a.DecidesEntry? || a.SeesEntryFilled? || a.GivesUp?
    ensures Invariant(Next(w, s, a), s)
  {
    hide Safe, Backed, Live;
    if a.SeesEntryFilled? {
      FilledIsNotLive(w.db.orders[w.stage.order]);
    }
  }

  lemma FilledIsNotLive(o: OrderRow)
    requires o.status == Filled
    ensures !Live(o)
  {
  }

  lemma StepKeeps(w: World, s: Symbol, a: Act)
    requires Invariant(w, s) && Enabled(w, s, a)
    ensures Invariant(Next(w, s, a), s)
  {
    hide Safe, Backed, After, PersistIntent, Honest, AllRecorded, RestsTruly;
    if a.Other? {
      OtherKeeps(w, s, a.step);
    } else if a.ReadsPosition? {
      ReadIsBacked(w.db, s, a.plan);
    } else {
      hide StageFits, Next;
      match a {
        case ReadsForExit(purpose, qty) => ExitReadKeeps(w, s, purpose, qty);
        case Submits(now) => SubmitKeeps(w, s, now);
        case LooksAtAttempt => LookKeeps(w, s);
        case _ => SightKeeps(w, s, a);
      }
    }
  }

  // ------------------------------------------------------------------ every run

  ghost predicate Reaches(w: World, s: Symbol, acts: seq<Act>, w': World)
    requires WellFormed(w.db)
    decreases |acts|
  {
    if acts == [] then w' == w
    else Enabled(w, s, acts[0]) && Reaches(Next(w, s, acts[0]), s, acts[1..], w')
  }

  lemma {:induction false} RunKeeps(w: World, s: Symbol, acts: seq<Act>, w': World)
    requires Invariant(w, s) && Reaches(w, s, acts, w')
    ensures Invariant(w', s)
    decreases |acts|
  {
    if acts != [] {
      StepKeeps(w, s, acts[0]);
      RunKeeps(Next(w, s, acts[0]), s, acts[1..], w');
    }
  }

  // ------------------------------------------------------------------ runs of what the code checks

  /** Like `Reaches`, without what is trusted. */
  ghost predicate Runs(w: World, s: Symbol, acts: seq<Act>, w': World)
    requires WellFormed(w.db)
    decreases |acts|
  {
    if acts == [] then w' == w
    else Allowed(w, s, acts[0]) && Runs(Next(w, s, acts[0]), s, acts[1..], w')
  }

  lemma OneAct(w: World, s: Symbol, a: Act)
    requires WellFormed(w.db) && Allowed(w, s, a)
    ensures Runs(w, s, [a], Next(w, s, a))
  {
    assert Runs(Next(w, s, a), s, [], Next(w, s, a));
    assert [a][1..] == [];
  }

  lemma {:induction false} RunsJoin(a: World, s: Symbol, first: seq<Act>, b: World, second: seq<Act>, c: World)
    requires WellFormed(a.db) && Runs(a, s, first, b) && WellFormed(b.db) && Runs(b, s, second, c)
    ensures Runs(a, s, first + second, c)
    decreases |first|
  {
    hide Next, Allowed;
    if first == [] {
      assert first + second == second;
    } else {
      RunsJoin(Next(a, s, first[0]), s, first[1..], b, second, c);
      assert (first + second)[1..] == first[1..] + second;
    }
  }

  lemma {:induction false} TrustedRuns(w: World, s: Symbol, acts: seq<Act>, w': World)
    requires WellFormed(w.db) && Reaches(w, s, acts, w')
    ensures Runs(w, s, acts, w') && WellFormed(w'.db)
    decreases |acts|
  {
    hide Next, Allowed, Trusted;
    if acts != [] {
      TrustedRuns(Next(w, s, acts[0]), s, acts[1..], w');
    }
  }

  /** One more act at the end of a run. */
  lemma RunsOn(a: World, s: Symbol, acts: seq<Act>, b: World, act: Act)
    requires WellFormed(a.db) && Runs(a, s, acts, b) && WellFormed(b.db) && Allowed(b, s, act)
    ensures Runs(a, s, acts + [act], Next(b, s, act))
  {
    OneAct(b, s, act);
    RunsJoin(a, s, acts, b, [act], Next(b, s, act));
  }

  // ------------------------------------------------------------------ what holds in every reachable state

  const START: World := World(EMPTY, Idle)

  /** In every reachable state the SELL orders together claim at most what is tracked, at most one of
      them is live (so never an exit beside a stop), and no execution of theirs is more than is held. */
  lemma SellsStayWithinPosition(s: Symbol, acts: seq<Act>, w: World)
    requires Reaches(START, s, acts, w)
    ensures Exposure(w.db) <= PositionOf(w.db, s).qty
    ensures OneLiveSell(w.db)
    ensures forall f | Lands(w.db, f, s) && f.side == Sell :: AnomaliesOf(PositionOf(w.db, s), f) == []
  {
    RunKeeps(START, s, acts, w);
    forall f | Lands(w.db, f, s) && f.side == Sell
      ensures AnomaliesOf(PositionOf(w.db, s), f) == []
    {
      WithinTracked(w.db, f, s);
    }
  }
}
