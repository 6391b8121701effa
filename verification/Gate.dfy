/** The phase of the system, the shutdowns in flight and the sweep deadline they hold: what the exclusive side
    of the registration gate guards. */
module Gate {
  import opened Base

  datatype Phase = Active | ShuttingDown | Defunct

  /** `completed`: a shutdown has completed since the system was last `Active`. */
  datatype Gate = Gate(phase: Phase, inFlight: nat, completed: bool, deadline: Option<nat>)

  const OPEN: Gate := Gate(Active, 0, false, None)

  function Enter(g: Gate): Gate { g.(phase := ShuttingDown, inFlight := g.inFlight + 1) }

  /** A shutdown ends, completed or cut short; the last one to end closes the era if one has completed. */
  function Leave(g: Gate, completed: bool): Gate
    requires g.inFlight > 0
  {
    var left := g.(inFlight := g.inFlight - 1, completed := g.completed || completed);
    if left.inFlight == 0 && left.completed then left.(phase := Defunct, deadline := None) else left
  }

  predicate CanReactivate(g: Gate) { g.inFlight == 0 && g.phase == Defunct }

  function Reactivate(g: Gate): Gate {
    if CanReactivate(g) then g.(completed := false, phase := Active) else g
  }

  /** A sweep's own deadline, raised to just after the clock it read. */
  function Floor(own: nat, now: nat): nat { Max(own, SaturatingDeadline(now, 1)) }

  function Lower(held: Option<nat>, floor: nat): nat { if held.Some? then Min(held.value, floor) else floor }

  /** The earlier of two deadlines, either of which may not be there. */
  function Earlier(a: Option<nat>, b: Option<nat>): Option<nat> {
    if a.None? then b else if b.None? then a else Some(Min(a.value, b.value))
  }

  /** A deadline that is there stays and only falls. */
  predicate Falls(a: Option<nat>, b: Option<nat>) { a.Some? ==> b.Some? && b.value <= a.value }

  function Fold(g: Gate, floor: nat): Gate { g.(deadline := Some(Lower(g.deadline, floor))) }

  /** What can happen to the gate. Only a shutdown in flight folds a deadline. */
  datatype Event = Entered | Ended(completed: bool) | Folded(floor: nat) | AskedToReactivate

  predicate Enabled(g: Gate, e: Event) { e.Ended? || e.Folded? ==> g.inFlight > 0 }

  function Apply(g: Gate, e: Event): Gate
    requires Enabled(g, e)
  {
    match e
    case Entered => Enter(g)
    case Ended(completed) => Leave(g, completed)
    case Folded(floor) => Fold(g, floor)
    case AskedToReactivate => Reactivate(g)
  }

  /** The gate after `events`, from the start; `None` when one of them could not happen. */
  function After(events: seq<Event>): Option<Gate> {
    if events == [] then Some(OPEN)
    else
      var e := events[|events| - 1];
      var before := After(events[..|events| - 1]);
      if before.Some? && Enabled(before.value, e) then Some(Apply(before.value, e)) else None
  }

  /** The events since the system was last `Active`, as a bag. */
  function SinceActive(events: seq<Event>): multiset<Event> {
    if events == [] then multiset{}
    else
      var e := events[|events| - 1];
      var before := events[..|events| - 1];
      if e.AskedToReactivate? then
        if After(before).Some? && CanReactivate(After(before).value) then multiset{} else SinceActive(before)
      else SinceActive(before) + multiset{e}
  }

  /** How many shutdowns a bag of events leaves in flight. */
  function StillInFlight(h: multiset<Event>): int {
    h[Entered] as int - h[Ended(true)] as int - h[Ended(false)] as int
  }

  /** The phase by counting alone: nothing entered, all ended with one completed, or in between. */
  function PhaseByCount(h: multiset<Event>): Phase {
    if h[Entered] == 0 then Active
    else if StillInFlight(h) == 0 && h[Ended(true)] > 0 then Defunct
    else ShuttingDown
  }

  /** Over every run of overlapping enters, completed and cut-short ends, folds and reactivations, the phase,
      the count in flight and the completed flag depend only on how many shutdowns entered and ended which way
      since the system was last `Active`, not on their order; and a deadline is held only while the system is
      `ShuttingDown`. */
  lemma {:induction false} PhaseIsByCount(events: seq<Event>)
    requires After(events).Some?
    ensures var g, h := After(events).value, SinceActive(events);
            && g.phase == PhaseByCount(h)
            && g.inFlight == StillInFlight(h)
            && g.completed == (h[Ended(true)] > 0)
            && (g.deadline.Some? ==> g.phase == ShuttingDown)
    decreases |events|
  {
    if events != [] {
      PhaseIsByCount(events[..|events| - 1]);
    }
  }

  /** The phase does not depend on the order in which the shutdowns ended. */
  lemma {:induction false} OrderDoesNotMatter(e1: seq<Event>, e2: seq<Event>)
    requires After(e1).Some? && After(e2).Some? && SinceActive(e1) == SinceActive(e2)
    ensures After(e1).value.phase == After(e2).value.phase
    ensures After(e1).value.inFlight == After(e2).value.inFlight
  {
    PhaseIsByCount(e1);
    PhaseIsByCount(e2);
  }

  /** `Active` means none in flight, none completed and no deadline held; `Defunct` holds exactly when none is
      in flight and one has completed; and only such a system is reactivated, to the state it started in. */
  lemma {:induction false} PhasesMean(events: seq<Event>)
    requires After(events).Some?
    ensures var g := After(events).value;
            && (g.phase == Active <==> g == OPEN)
            && (g.phase == Defunct <==> g.inFlight == 0 && g.completed)
            && (CanReactivate(g) <==> g.inFlight == 0 && g.completed)
            && (CanReactivate(g) ==> Reactivate(g) == OPEN)
  {
    PhaseIsByCount(events);
    EnteredFirst(events);
  }

  /** No end comes without its entry. */
  lemma {:induction false} EnteredFirst(events: seq<Event>)
    requires After(events).Some?
    ensures var h := SinceActive(events);
            h[Entered] == 0 ==> h[Ended(true)] == 0 && h[Ended(false)] == 0
    decreases |events|
  {
    PhaseIsByCount(events);
  }

  /** Over any stretch of a run, the held deadline is the earlier one unless the era was closed in between:
      it never rises until it is cleared, and it is cleared only with the move to `Defunct`. */
  lemma {:induction false} DeadlineOnlyFalls(events: seq<Event>, more: seq<Event>)
    requires After(events).Some? && After(events + more).Some? && After(events).value.deadline.Some?
    requires forall k :: 0 <= k <= |more| ==>
                           After(events + more[..k]).Some? && After(events + more[..k]).value.phase != Defunct
    ensures After(events + more).value.deadline.Some?
    ensures After(events + more).value.deadline.value <= After(events).value.deadline.value
    decreases |more|
  {
    if more == [] {
      assert events + more == events;
    } else {
      var n := |more| - 1;
      var init := more[..n];
      assert events + more == (events + init) + [more[n]];
      assert more[..|more|] == more;
      forall k | 0 <= k <= |init|
        ensures After(events + init[..k]).Some? && After(events + init[..k]).value.phase != Defunct
      {
        assert init[..k] == more[..k];
      }
      assert init[..n] == init;
      DeadlineOnlyFalls(events, init);
      assert (events + more)[..|events + more| - 1] == events + init;
    }
  }
}
