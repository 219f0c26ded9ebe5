/** What a reconciliation run and each event of the stream open or close: when a run ends in which state, and what the
    saved state allows after it (engine/application/reconciliation_service.py, workers/reconciliation_worker.py,
    engine/domain/models.py). */
module Verdicts {
  import opened Common
  import Ledger
  import opened ReconState
  import opened Reconciliation
  import opened Worker

  // ------------------------------------------------------------------ the gates

  /** Nothing is allowed, however fresh the state is. */
  ghost predicate BlocksAll(s: State) {
    forall t: int, age: int {:trigger AllowsEntries(s, t, age)} {:trigger AllowsExits(s, t, age)} ::
      !AllowsEntries(s, t, age) && !AllowsExits(s, t, age)
  }

  /** Positions may be closed while the state is fresh, none may be opened. */
  ghost predicate ExitsOnly(s: State, stamped: int) {
    forall t: int, age: int {:trigger AllowsEntries(s, t, age)} {:trigger AllowsExits(s, t, age)} ::
      !AllowsEntries(s, t, age) && (AllowsExits(s, t, age) <==> t - stamped <= age)
  }

  ghost predicate AllowsAll(s: State, stamped: int) {
    forall t: int, age: int {:trigger AllowsEntries(s, t, age)} {:trigger AllowsExits(s, t, age)} ::
      (AllowsEntries(s, t, age) <==> t - stamped <= age) && (AllowsExits(s, t, age) <==> t - stamped <= age)
  }

  // ------------------------------------------------------------------ the end of a run

  /** A finding that halts: anything but an ambiguous order inside its grace period, orders and trades of somebody
      else, and a position that was corrected. */
  predicate Halting(notes: seq<Mismatch>) {
    exists k | 0 <= k < |notes| :: notes[k].kind !in {AmbiguousPending, ForeignOpenOrder, ForeignFill, PositionCorrected}
  }

  /** From any earlier state a completed run with a halting finding ends HALTED; DEGRADED is a run that failed;
      RECONCILING one that has only pending orders against it; HEALTHY one that has nothing against it, unless the state
      was HALTED before and nobody has acknowledged that. There is no other end. */
  lemma VerdictExactly(db: Ledger.Db, env: Env, previous: State, operatorAck: bool)
    requires Ledger.WellFormed(db)
    ensures var p, status := RunBody(db, env, previous.lastSuccess), Reconciled(db, env, previous, operatorAck).1;
            && (status == Degraded <==> p.raised)
            && (status == Halted <==>
                  !p.raised && (Halting(p.notes) || (p.pending == 0 && previous.status == Halted && !operatorAck)))
            && (status == Reconciling <==> !p.raised && !Halting(p.notes) && p.pending > 0)
            && (status == Healthy <==>
                  !p.raised && !Halting(p.notes) && p.pending == 0 && (previous.status == Halted ==> operatorAck))
            && Reconciled(db, env, previous, operatorAck).0 == p.db
  {
    hide RunBody;
    HaltingIsCritical(RunBody(db, env, previous.lastSuccess).notes);
  }

  lemma HaltingIsCritical(notes: seq<Mismatch>)
    ensures Halting(notes) <==> AnyCritical(notes)
  {
    if Halting(notes) {
      var k :| 0 <= k < |notes| && notes[k].kind !in {AmbiguousPending, ForeignOpenOrder, ForeignFill, PositionCorrected};
      assert Critical(notes[k].kind);
    }
    if AnyCritical(notes) {
      var k :| 0 <= k < |notes| && Critical(notes[k].kind);
      assert notes[k].kind !in {AmbiguousPending, ForeignOpenOrder, ForeignFill, PositionCorrected};
    }
  }

  /** What the end of a run saves. The time of the last success moves exactly with HEALTHY. */
  lemma EndExactly(w: WorkerState, body: Body, now: int)
    requires w.phase.InRun?
    ensures var w' := Next(w, Step(Ends(body), now));
            var latched := w.phase.previous.status == Halted && !w.phase.operatorAck;
            && (w'.saved.status == Degraded <==> body.Raised?)
            && (w'.saved.status == Halted <==> body.Completed? && (body.critical || (!body.pending && latched)))
            && (w'.saved.status == Reconciling <==> body.Completed? && !body.critical && body.pending)
            && (w'.saved.status == Healthy <==> body.Completed? && !body.critical && !body.pending && !latched)
            && w'.saved.lastSuccess == (if w'.saved.status == Healthy then Some(now) else w.saved.lastSuccess)
            && w'.saved.updatedAt == Some(now) && w'.saved.wsConnected == w.saved.wsConnected
            && w'.connected == w.connected && w'.phase == Settling(w'.saved.status)
            && (w'.saved.status in {Halted, Reconciling} ==> BlocksAll(w'.saved))
            && (w'.saved.status == Degraded ==> ExitsOnly(w'.saved, now))
            && (w'.saved.status == Healthy ==> AllowsAll(w'.saved, now))
  {
  }

  /** A critical finding halts from any state: the state is latched and allows nothing, also once the lock is released. */
  lemma CriticalHalts(w: WorkerState, pending: bool, now: int, later: int)
    requires w.phase.InRun?
    ensures var w' := Next(w, Step(Ends(Completed(true, pending)), now));
            var w'' := Next(w', Step(Releases, later));
            && w'.saved.status == Halted && Latched(w') && BlocksAll(w'.saved)
            && w''.saved.status == Halted && Latched(w'') && BlocksAll(w''.saved) && w''.phase == Idle
  {
  }

  /** The run inside the worker: what it has found decides what is saved. */
  lemma FindingsAreSaved(w: WorkerState, p: Progress, body: Body, now: int)
    requires w.phase.InRun? && body == BodyOf(p)
    ensures var w' := Next(w, Step(Ends(body), now));
            && (!p.raised && Halting(p.notes) ==> w'.saved.status == Halted && Latched(w') && BlocksAll(w'.saved))
            && (w'.saved.status == Healthy ==> !p.raised && !Halting(p.notes) && p.pending == 0)
  {
    HaltingIsCritical(p.notes);
    EndExactly(w, body, now);
  }

  /** A run inside the worker that started from `previous` saves this status. */
  ghost predicate Saves(w: WorkerState, previous: State, operatorAck: bool, body: Body, now: int, status: ReconStatus) {
    w.phase == InRun(previous, operatorAck) ==> Next(w, Step(Ends(body), now)).saved.status == status
  }

  /** What is saved is the verdict of the run, from the tables and what the exchange answered. */
  lemma RunIsSaved(w: WorkerState, db: Ledger.Db, env: Env, previous: State, operatorAck: bool, now: int)
    requires Ledger.WellFormed(db)
    ensures Saves(w, previous, operatorAck, BodyOf(RunBody(db, env, previous.lastSuccess)), now,
                  Reconciled(db, env, previous, operatorAck).1)
  {
    hide RunBody, BodyOf, Ledger.WellFormed;
  }

  // ------------------------------------------------------------------ the other events

  /** A start and a new connection wait for the next run; HALTED stays. */
  lemma ConnectingBlocks(w: WorkerState, e: Event, now: int)
    requires e in {Starts, Connects} && Enabled(w, e)
    ensures var w' := Next(w, Step(e, now));
            && !w'.connected && BlocksAll(w'.saved) && w'.saved.lastSuccess == w.saved.lastSuccess
            && (if w.saved.status == Halted then w'.saved == w.saved
                else w'.saved.status == Connecting && !w'.saved.wsConnected && w'.saved.updatedAt == Some(now))
            && w'.phase == (if e == Starts then Phase.Idle else w.phase)
  {
  }

  /** A stream that drops closes entries at once and leaves exits open, unless HALTED. */
  lemma DropLeavesExits(w: WorkerState, now: int)
    requires Enabled(w, Disconnects)
    ensures var w' := Next(w, Step(Disconnects, now));
            && !w'.connected && !w'.saved.wsConnected && w'.saved.updatedAt == Some(now)
            && w'.saved.lastSuccess == w.saved.lastSuccess && w'.phase == w.phase
            && (if w.saved.status == Halted then w'.saved.status == Halted && BlocksAll(w'.saved)
                else w'.saved.status == Degraded && ExitsOnly(w'.saved, now))
  {
  }

  /** A subscription only notes that the stream is there; the gates open with the next run. */
  lemma SubscriptionOpensNothing(w: WorkerState, now: int)
    requires Enabled(w, Subscribes)
    ensures var w' := Next(w, Step(Subscribes, now));
            w' == w.(connected := true, saved := w.saved.(wsConnected := true, updatedAt := Some(now)))
  {
  }

  /** While a run is on, nothing is allowed; it remembers the state it found. */
  lemma RunBlocks(w: WorkerState, operatorAck: bool, now: int)
    requires Enabled(w, Begins(operatorAck))
    ensures var w' := Next(w, Step(Begins(operatorAck), now));
            && w'.phase == InRun(w.saved, operatorAck) && w'.connected == w.connected && BlocksAll(w'.saved)
            && w'.saved == w.saved.(status := Reconciling, updatedAt := Some(now))
  {
  }

  /** Without a stream, a run that ended HEALTHY leaves exits only. */
  lemma ReleaseNeedsStream(w: WorkerState, now: int)
    requires w.phase.Settling?
    ensures var w' := Next(w, Step(Releases, now));
            && w'.phase == Idle && w'.connected == w.connected && w'.saved.lastSuccess == w.saved.lastSuccess
            && (if w.phase.result == Healthy && !w.connected then
                  w'.saved.status == Degraded && !w'.saved.wsConnected && ExitsOnly(w'.saved, now)
                else w'.saved == w.saved)
  {
  }

  /** A heartbeat keeps the state fresh and changes nothing else; a crash saves nothing. */
  lemma HeartbeatOnlyStamps(w: WorkerState, now: int)
    requires Enabled(w, Rewrites)
    ensures Next(w, Step(Rewrites, now)) == w.(saved := w.saved.(updatedAt := Some(now)))
    ensures Next(w, Step(Crashes, now)) == w.(connected := false, phase := Down(now))
  {
  }
}
