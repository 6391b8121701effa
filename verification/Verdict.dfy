/** Status planes and the two classifiers that turn a terminal plane into an outcome. */
module Verdict {
  import opened Base

  datatype Outcome = Graceful | Killed | Aborted | Unresponsive

  /** A status plane: whether `Stopped` was published, whether every sender is gone, and when the end became
      final. */
  datatype Plane = Plane(stopped: bool, closed: bool, finalAt: Option<nat>)

  predicate Terminal(p: Plane) { p.stopped || p.closed }

  /** The classifier of a leftover whose plane is terminal. */
  function LeftoverOutcome(p: Plane, raised: bool, deadline: nat): Outcome {
    if !p.stopped then Aborted
    else if raised || p.finalAt.None? || p.finalAt.value >= deadline then Killed
    else Graceful
  }

  /** The classifier of a terminal wait: what was asked for holds when the actor published `Stopped` itself. */
  function TerminalOutcome(p: Plane, requested: Outcome): Outcome { if p.stopped then requested else Aborted }
}
