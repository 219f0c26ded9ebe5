/** The reconciliation worker: stream callbacks, reconciliation runs, crashes and restarts interleaved on one
    saved state (workers/reconciliation_worker.py, engine/application/reconciliation_service.py). */
module Worker {
  import opened Common
  import opened ReconState

  /** Where the worker stands: not running, idle, inside a run (with the state read at its start), or
      between the end of a run and the release of its lock. */
  datatype Phase =
    | Down(since: int)
    | Idle
    | InRun(previous: State, operatorAck: bool)
    | Settling(result: ReconStatus)

  datatype WorkerState = WorkerState(saved: State, connected: bool, phase: Phase)

  /** One handler-level step. `Rewrites` are the heartbeat and the stamp of a stream event. */
  datatype Event =
    | Starts
    | Connects
    | Disconnects
    | Subscribes
    | Begins(operatorAck: bool)
    | Ends(body: Body)
    | Releases
    | Rewrites
    | Crashes

  datatype Step = Step(event: Event, now: int)

  predicate Enabled(w: WorkerState, e: Event) {
    match e
    case Starts => w.phase.Down?
    case Begins(_) => w.phase.Idle?
    case Ends(_) => w.phase.InRun?
    case Releases => w.phase.Settling?
    case _ => !w.phase.Down?
  }

  function Written(s: State, status: ReconStatus, wsConnected: bool, now: int): State {
    s.(status := status, wsConnected := wsConnected, updatedAt := Some(now))
  }

  function Next(w: WorkerState, s: Step): WorkerState
    requires Enabled(w, s.event)
  {
    match s.event
    case Starts =>
      WorkerState(if w.saved.status.Halted? then w.saved else Written(w.saved, Connecting, false, s.now), false, Idle)
    case Connects =>
      w.(connected := false,
         saved := if w.saved.status.Halted? then w.saved else Written(w.saved, Connecting, false, s.now))
    case Disconnects =>
      w.(connected := false,
         saved := Written(w.saved, if w.saved.status.Halted? then Halted else Degraded, false, s.now))
    case Subscribes => w.(connected := true, saved := Written(w.saved, w.saved.status, true, s.now))
    case Begins(ack) =>
      w.(phase := InRun(w.saved, ack), saved := Written(w.saved, Reconciling, w.saved.wsConnected, s.now))
    case Ends(body) =>
      var result := OutcomeOf(body, w.phase.previous.status, w.phase.operatorAck);
      w.(phase := Settling(result),
         saved := Written(w.saved, result, w.saved.wsConnected, s.now)
                  .(lastSuccess := if result.Healthy? then Some(s.now) else w.saved.lastSuccess))
    case Releases =>
      w.(phase := Idle,
         saved := if !w.connected && w.phase.result.Healthy? then Written(w.saved, Degraded, false, s.now) else w.saved)
    case Rewrites => w.(saved := w.saved.(updatedAt := Some(s.now)))
    case Crashes => w.(connected := false, phase := Down(s.now))
  }

  // ------------------------------------------------------------------ the worker as it runs

  /** `previous` and `operatorAck` are the locals of the run that holds the lock, `result` what it returned. */
  class ReconciliationWorker {
    var saved: State
    var connected: bool
    var phase: Phase

    function Snapshot(): WorkerState
      reads this
    {
      WorkerState(saved, connected, phase)
    }

    /** A process starts on what an earlier one saved. */
    constructor (saved: State, now: int)
      ensures forall since :: Snapshot() == Next(WorkerState(saved, false, Down(since)), Step(Starts, now))
    {
      this.connected := false;
      this.phase := Idle;
      this.saved := if saved.status != Halted then Written(saved, Connecting, false, now) else saved;
    }

    method SetState(status: ReconStatus, success: bool, wsConnected: Option<bool>, now: int)
      modifies this`saved
      ensures saved == Written(old(saved), status, if wsConnected.Some? then wsConnected.value else old(saved).wsConnected, now)
                       .(lastSuccess := if success then Some(now) else old(saved).lastSuccess)
    {
      var s := saved.(status := status);
      if success {
        s := s.(lastSuccess := Some(now));
      }
      if wsConnected.Some? {
        s := s.(wsConnected := wsConnected.value);
      }
      saved := s.(updatedAt := Some(now));
    }

    method OnState(e: Event, now: int)
      requires e in {Connects, Disconnects, Subscribes} && !phase.Down?
      modifies this`saved, this`connected
      ensures Snapshot() == Next(old(Snapshot()), Step(e, now))
    {
      if e == Connects {
        connected := false;
        if saved.status != Halted {
          SetState(Connecting, false, Some(false), now);
        }
      } else if e == Disconnects {
        connected := false;
        if saved.status != Halted {
          SetState(Degraded, false, Some(false), now);
        } else {
          SetState(Halted, false, Some(false), now);
        }
      } else {
        connected := true;
        saved := saved.(wsConnected := true, updatedAt := Some(now));
      }
    }

    method BeginRun(operatorAck: bool, now: int)
      requires phase.Idle?
      modifies this`saved, this`phase
      ensures Snapshot() == Next(old(Snapshot()), Step(Begins(operatorAck), now))
    {
      phase := InRun(saved, operatorAck);
      SetState(Reconciling, false, None, now);
    }

    method EndRun(body: Body, now: int)
      requires phase.InRun?
      modifies this`saved, this`phase
      ensures Snapshot() == Next(old(Snapshot()), Step(Ends(body), now))
    {
      var result := Healthy;
      if body.Raised? {
        result := Degraded;
      } else if body.critical {
        result := Halted;
      } else if body.pending {
        result := Reconciling;
      } else if phase.previous.status == Halted && !phase.operatorAck {
        result := Halted;
      }
      SetState(result, result == Healthy, None, now);
      phase := Settling(result);
    }

    method Release(now: int)
      requires phase.Settling?
      modifies this`saved, this`phase
      ensures Snapshot() == Next(old(Snapshot()), Step(Releases, now))
    {
      if !connected && phase.result == Healthy {
        SetState(Degraded, false, Some(false), now);
      }
      phase := Idle;
    }
  }

  // ------------------------------------------------------------------ what every interleaving keeps

  ghost predicate Invariant(w: WorkerState) {
    match w.phase
    case Down(since) => w.saved.updatedAt.Some? ==> w.saved.updatedAt.value <= since
    case Idle => w.saved.status.Healthy? ==> w.connected
    case InRun(_, _) => w.saved.status !in {Healthy, Halted}
    case Settling(result) =>
      && (w.saved.status.Healthy? ==> result.Healthy?)
      && (w.saved.status.Halted? <==> result.Halted?)
  }

  ghost predicate Stamped(w: WorkerState, now: int) {
    (w.saved.updatedAt.Some? ==> w.saved.updatedAt.value <= now) && (w.phase.Down? ==> w.phase.since <= now)
  }

  lemma StepKeeps(w: WorkerState, s: Step)
    requires Invariant(w) && Enabled(w, s.event) && Stamped(w, s.now)
    ensures Invariant(Next(w, s)) && Stamped(Next(w, s), s.now)
  {
  }

  /** A run of the machine under a clock that does not go back. */
  ghost predicate Reaches(w: WorkerState, steps: seq<Step>, w': WorkerState, now: int)
    decreases |steps|
  {
    if steps == [] then w' == w && Stamped(w, now)
    else
      && Enabled(w, steps[0].event) && Stamped(w, steps[0].now)
      && Reaches(Next(w, steps[0]), steps[1..], w', now)
  }

  lemma {:induction false} EveryRunKeeps(w: WorkerState, steps: seq<Step>, w': WorkerState, now: int)
    requires Invariant(w) && Reaches(w, steps, w', now)
    ensures Invariant(w') && Stamped(w', now)
    decreases |steps|
  {
    if steps != [] {
      StepKeeps(w, steps[0]);
      EveryRunKeeps(Next(w, steps[0]), steps[1..], w', now);
    }
  }

  /** From any saved state: whenever no run holds the lock, HEALTHY means that the stream is connected;
      during a run it is never HEALTHY; and after a crash it opens the gate no longer than the maximum age. */
  lemma HealthyMeansConnected(saved: State, since: int, steps: seq<Step>, w: WorkerState, now: int, maxAge: nat)
    requires saved.updatedAt.Some? ==> saved.updatedAt.value <= since
    requires Reaches(WorkerState(saved, false, Down(since)), steps, w, now)
    requires AllowsEntries(w.saved, now, maxAge)
    ensures match w.phase
            case Down(crash) => now <= crash + maxAge
            case Idle => w.connected
            case InRun(_, _) => false
            case Settling(result) => result.Healthy?
  {
    EveryRunKeeps(WorkerState(saved, false, Down(since)), steps, w, now);
  }

  // ------------------------------------------------------------------ the HALTED latch

  /** HALTED, or inside a run that started from HALTED. */
  predicate Latched(w: WorkerState) {
    if w.phase.InRun? then w.phase.previous.status.Halted? else w.saved.status.Halted?
  }

  /** The steps that let go of the latch: a clean run with an acknowledgement is only one of them. */
  predicate LetsGo(w: WorkerState, e: Event) {
    && w.phase.InRun?
    && match e
       case Crashes => true
       case Ends(Raised) => true
       case Ends(Completed(critical, pending)) => !critical && (pending || w.phase.operatorAck)
       case _ => false
  }

  lemma LatchLeftExactly(w: WorkerState, s: Step)
    requires Invariant(w) && Latched(w) && Enabled(w, s.event)
    ensures Latched(Next(w, s)) <==> !LetsGo(w, s.event)
  {
  }

  ghost predicate NeverLetsGo(w: WorkerState, steps: seq<Step>)
    decreases |steps|
  {
    steps != [] ==>
      Enabled(w, steps[0].event) && !LetsGo(w, steps[0].event) && NeverLetsGo(Next(w, steps[0]), steps[1..])
  }

  /** Across disconnects, reconnects, further runs and restarts HALTED holds, and with it every entry is
      blocked, unless one of those steps happens. */
  lemma {:induction false} LatchHolds(w: WorkerState, steps: seq<Step>, w': WorkerState, now: int, maxAge: int)
    requires Invariant(w) && Latched(w) && Reaches(w, steps, w', now) && NeverLetsGo(w, steps)
    ensures Latched(w') && !AllowsEntries(w'.saved, now, maxAge)
    ensures AllowsExits(w'.saved, now, maxAge) ==> w'.phase.InRun? && w'.saved.status.Degraded?
    decreases |steps|
  {
    if steps != [] {
      StepKeeps(w, steps[0]);
      LatchLeftExactly(w, steps[0]);
      LatchHolds(Next(w, steps[0]), steps[1..], w', now, maxAge);
    }
  }

  /** Without any acknowledgement the latch can end as HEALTHY: one run that fails, then one that is clean. */
  lemma LatchForgotten(w: WorkerState, now: int)
    requires w.phase.Idle? && w.saved.status.Halted? && w.connected && Stamped(w, now)
    ensures var steps := [Step(Begins(false), now), Step(Ends(Raised), now), Step(Releases, now),
                          Step(Begins(false), now), Step(Ends(Completed(false, false)), now), Step(Releases, now)];
            exists w' :: Reaches(w, steps, w', now) && w'.phase.Idle? && w'.saved.status.Healthy?
  {
    var s1, s2, s3 := Step(Begins(false), now), Step(Ends(Raised), now), Step(Releases, now);
    var s5 := Step(Ends(Completed(false, false)), now);
    var w1 := Next(w, s1);
    var w2 := Next(w1, s2);
    var w3 := Next(w2, s3);
    var w4 := Next(w3, s1);
    var w5 := Next(w4, s5);
    var w6 := Next(w5, s3);
    assert Reaches(w6, [], w6, now);
    assert Reaches(w5, [s3], w6, now);
    assert [s5, s3][1..] == [s3];
    assert Reaches(w4, [s5, s3], w6, now);
    assert [s1, s5, s3][1..] == [s5, s3];
    assert Reaches(w3, [s1, s5, s3], w6, now);
    assert [s3, s1, s5, s3][1..] == [s1, s5, s3];
    assert Reaches(w2, [s3, s1, s5, s3], w6, now);
    assert [s2, s3, s1, s5, s3][1..] == [s3, s1, s5, s3];
    assert Reaches(w1, [s2, s3, s1, s5, s3], w6, now);
    assert [s1, s2, s3, s1, s5, s3][1..] == [s2, s3, s1, s5, s3];
  }
}
