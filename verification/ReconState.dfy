/** The saved reconciliation state and its gates (engine/domain/models.py), and how a run chooses its
    outcome (engine/application/reconciliation_service.py). */
module ReconState {
  import opened Common

  datatype ReconStatus = Connecting | Reconciling | Healthy | Degraded | Halted

  /** The row of one bot, without its human-readable reason. */
  datatype State = State(status: ReconStatus, updatedAt: Option<int>, lastSuccess: Option<int>, wsConnected: bool)

  predicate FreshAt(s: State, now: int, maxAge: int) {
    s.updatedAt.Some? && now - s.updatedAt.value <= maxAge
  }

  predicate AllowsEntries(s: State, now: int, maxAge: int) {
    s.status.Healthy? && FreshAt(s, now, maxAge)
  }

  predicate AllowsExits(s: State, now: int, maxAge: int) {
    s.status in {Healthy, Degraded} && FreshAt(s, now, maxAge)
  }

  /** How the body of a run ended. */
  datatype Body = Raised | Completed(critical: bool, pending: bool)

  function OutcomeOf(body: Body, previous: ReconStatus, operatorAck: bool): ReconStatus {
    match body
    case Raised => Degraded
    case Completed(critical, pending) =>
      if critical then Halted
      else if pending then Reconciling
      else if previous.Halted? && !operatorAck then Halted
      else Healthy
  }
}
