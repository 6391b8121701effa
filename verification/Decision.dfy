/** The second cell of a bounded stop: the caller decides its first request while the stop task it spawned
    beforehand may be lost at any moment. The cell settles which of the two hands over the steps still owed. */
module Decision {
  import opened Base

  datatype Cell = Undecided | Accepted | Refused | LostUndecided

  datatype CallerPc =
    | Raising                    // the first request is not raised yet
    | Raised(accepted: bool)     // the lane has answered; the decision follows
    | HandingOver                // the decision found the task lost: the caller owes the steps
    | Over(accepted: bool)       // decided, or unwound before deciding

  datatype TaskPc =
    | Waiting                    // takes no step before the decision
    | Stepping
    | Done
    | CarryingOn                 // lost, and owes the steps
    | Lost

  /** `taken` records a step of the ladder, the last two fields count the hand-overs of the owed steps. */
  datatype State = State(cell: Cell, caller: CallerPc, task: TaskPc, taken: bool, byCaller: nat, byTask: nat)

  datatype Action =
    | Raise(accepted: bool) | Decide | Unwind | HandOver | LeaveCall   // the caller
    | Poll | TakeStep | Finish | Lose | CarryOn                        // the stop task

  /** Decides the request as refused, unless it is decided or the task is already lost. */
  function DecideRefused(c: Cell): Cell { if c == Undecided then Refused else c }

  /** Decides the request as accepted; the flag says the task was lost before. */
  function DecideAccepted(c: Cell): (Cell, bool) {
    if c == Undecided then (Accepted, false) else (c, c == LostUndecided)
  }

  /** Records the loss of the task; the flag says it owes the steps. */
  function LoseTask(c: Cell): (Cell, bool) {
    if c == Undecided then (LostUndecided, false) else (c, c == Accepted)
  }

  function Next(s: State, a: Action): Option<State> {
    match a
    case Raise(accepted) => if s.caller == Raising then Some(s.(caller := Raised(accepted))) else None
    case Decide =>
      if s.caller == Raised(false) then Some(s.(cell := DecideRefused(s.cell), caller := Over(false)))
      else if s.caller == Raised(true) then
        var (cell, lost) := DecideAccepted(s.cell);
        Some(s.(cell := cell, caller := if lost then HandingOver else Over(true)))
      else None
    case Unwind =>
      if s.caller.Raising? || s.caller.Raised? then Some(s.(cell := DecideRefused(s.cell), caller := Over(false)))
      else None
    case HandOver =>
      if s.caller == HandingOver then Some(s.(caller := Over(true), byCaller := s.byCaller + 1)) else None
    case LeaveCall => if s.caller.Over? then Some(s.(cell := DecideRefused(s.cell))) else None
    case Poll =>
      if s.task != Waiting then None
      else if s.cell == Undecided then Some(s)
      else Some(s.(task := if s.cell == Refused then Done else Stepping))
    case TakeStep => if s.task == Stepping then Some(s.(taken := true)) else None
    case Finish => if s.task == Stepping then Some(s.(task := Done)) else None
    case Lose =>
      if s.task == Waiting || s.task == Stepping then
        var (cell, owes) := LoseTask(s.cell);
        Some(s.(cell := cell, task := if owes then CarryingOn else Lost))
      else None
    case CarryOn => if s.task == CarryingOn then Some(s.(task := Lost, byTask := s.byTask + 1)) else None
  }

  predicate Init(s: State) { s == State(Undecided, Raising, Waiting, false, 0, 0) }

  ghost predicate Run(states: seq<State>, acts: seq<Action>) {
    && |states| == |acts| + 1
    && Init(states[0])
    && forall i :: 0 <= i < |acts| ==> Next(states[i], acts[i]) == Some(states[i + 1])
  }

  /** Both sides have done what the cell gave them to do. */
  predicate Quiet(s: State) { s.caller.Over? && (s.task == Lost || s.task == Done) }

  predicate Inv(s: State) {
    && (s.cell == Undecided ==> (s.caller.Raising? || s.caller.Raised?) && s.task == Waiting)
    && (s.cell == LostUndecided ==> s.task == Lost && s.byTask == 0)
    && (s.cell == Accepted ==> s.caller == Over(true) && s.byCaller == 0)
    && (s.cell == Refused ==> s.caller == Over(false) && s.byCaller == 0 && s.byTask == 0 && s.task != CarryingOn)
    && (s.caller == HandingOver ==> s.cell == LostUndecided)
    && ((s.task == Stepping || s.task == CarryingOn || s.taken || s.byTask > 0) ==> s.cell == Accepted)
    && s.byTask == (if s.cell == Accepted && s.task == Lost then 1 else 0)
    && s.byCaller == (if s.cell == LostUndecided && s.caller == Over(true) then 1 else 0)
  }

  /** In every interleaving of the caller with the task, the loss of the task and an unwind of the caller
      included: no step is taken and nothing handed over for a request that is not decided accepted; the steps
      are handed over at most once; and once both sides are quiet they were handed over exactly once when an
      accepted request lost its task, and not at all otherwise. */
  lemma {:induction false} OwedByExactlyOne(states: seq<State>, acts: seq<Action>, i: nat)
    requires Run(states, acts) && i < |states|
    ensures Inv(states[i])
    ensures states[i].byCaller + states[i].byTask <= 1
    ensures states[i].taken ==> states[i].caller == Over(true)
    ensures states[i].caller == Over(false) ==> states[i].byCaller + states[i].byTask == 0
    ensures Quiet(states[i]) ==>
              states[i].byCaller + states[i].byTask
              == (if states[i].caller == Over(true) && states[i].task == Lost then 1 else 0)
  {
    if i > 0 {
      OwedByExactlyOne(states, acts, i - 1);
      assert Next(states[i - 1], acts[i - 1]) == Some(states[i]);
    }
  }

  /** In every run: the stop task ends without having begun its steps only for a request that was refused, and waits
      only as long as the request is not decided; so an accepted request whose task was not lost had its steps. */
  lemma {:induction false} AcceptedTakesItsSteps(states: seq<State>, acts: seq<Action>, i: nat)
    requires Run(states, acts) && i < |states| && states[i].task == Done
    ensures states[i].caller == Over(false) || exists k :: 0 <= k < i && states[k].task == Stepping
  {
    if i > 0 {
      assert Next(states[i - 1], acts[i - 1]) == Some(states[i]);
      OwedByExactlyOne(states, acts, i);
      if states[i - 1].task == Done {
        AcceptedTakesItsSteps(states, acts, i - 1);
      }
    }
  }

  /** What is done once both sides are quiet: the caller raised and decided, or unwound; the task ended, or is lost.
      Whatever both are at, each can go on to there by its own steps. */
  lemma BothGetThere(s: State) returns (a: Action)
    requires Inv(s) && !Quiet(s)
    ensures a.Decide? || a.HandOver? || a.Unwind? || a.Poll? || a.Finish? || a.CarryOn?
    ensures Next(s, a).Some? && Next(s, a).value != s
  {
    a := match s.caller
      case Raising => Unwind
      case Raised(_) => Decide
      case HandingOver => HandOver
      case Over(_) => if s.task == Waiting then Poll else if s.task == Stepping then Finish else CarryOn;
  }
}
