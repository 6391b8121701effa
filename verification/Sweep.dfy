/** The final sweeps of overlapping shutdowns over one leftover, an arbitrary one: each folds its deadline into
    the system's, waits, forces what outlives the deadline and reports. The clock, the leftover's own end and
    the sweeps interleave. */
module Sweep {
  import opened Base
  import opened Gate
  import opened Verdict

  datatype SweepPc =
    | Folding(floor: nat)                 // has read the clock, not yet folded
    | Listing(own: nat)                   // folded; about to list the leftovers
    | Waiting(own: nat, deadline: nat)
    | SeenEnd(own: nat)
    | Straggling(own: nat)                // not seen to end: goes to the force
    | Targeted(own: nat)                  // the force has found its entry; about to raise
    | Forced(own: nat, raised: bool)
    | Finished

  /** `refuses`: the leftover's lane takes no `Kill` any more. */
  datatype State = State(now: nat, held: Option<nat>, plane: Plane, refuses: bool, registered: bool,
                         sweeps: map<nat, SweepPc>, reports: map<nat, Outcome>)

  datatype Action =
    | Tick(nanos: nat)
    | ReadClock(w: nat, own: nat) | WriteFold(w: nat)   // the fold as the code takes it, in two steps
    | FoldAtOnce(w: nat, own: nat)                      // the fold as one step
    | List(w: nat) | Follow(w: nat) | SeeEnd(w: nat) | Expire(w: nat) | FailWait(w: nat)
    | LookUp(w: nat) | Raise(w: nat) | Report(w: nat) | GiveUp(w: nat) | Cut(w: nat)
    | Clear                                             // the last shutdown in flight ends
    | Seal | Finalize | Free | Publish | Close          // the leftover

  /** The sweep has the leftover in its list and has not reported it. */
  predicate Holds(pc: SweepPc) { pc.Waiting? || pc.SeenEnd? || pc.Straggling? || pc.Targeted? || pc.Forced? }

  predicate NoneLive(s: State) { forall w :: w in s.sweeps ==> s.sweeps[w].Finished? }

  function Go(s: State, w: nat, pc: SweepPc): State { s.(sweeps := s.sweeps[w := pc]) }

  function SweepStep(s: State, w: nat, pc: SweepPc, a: Action): Option<State> {
    match (a, pc)
    case (WriteFold(_), Folding(floor)) =>
      Some(Go(s, w, Listing(Lower(s.held, floor))).(held := Some(Lower(s.held, floor))))
    case (List(_), Listing(own)) => Some(Go(s, w, if s.registered then Waiting(own, own) else Finished))
    case (Follow(_), Waiting(own, deadline)) => Some(Go(s, w, Waiting(own, Lower(s.held, deadline))))
    case (SeeEnd(_), Waiting(own, _)) => if Terminal(s.plane) then Some(Go(s, w, SeenEnd(own))) else None
    case (Expire(_), Waiting(own, deadline)) =>
      if s.now >= deadline && !Terminal(s.plane) then Some(Go(s, w, Straggling(own))) else None
    case (FailWait(_), Waiting(own, _)) => Some(Go(s, w, Straggling(own)))
    case (LookUp(_), Straggling(own)) => Some(Go(s, w, if s.registered then Targeted(own) else Forced(own, false)))
    case (Raise(_), Targeted(own)) => Some(Go(s, w, Forced(own, !s.refuses)))
    case (Report(_), SeenEnd(own)) =>
      Some(Go(s, w, Finished).(reports := s.reports[w := LeftoverOutcome(s.plane, false, Lower(s.held, own))]))
    case (Report(_), Forced(own, raised)) =>
      if Terminal(s.plane) then
        Some(Go(s, w, Finished).(reports := s.reports[w := LeftoverOutcome(s.plane, raised, Lower(s.held, own))]))
      else None
    case (GiveUp(_), Forced(_, _)) => if Terminal(s.plane) then None else Some(Go(s, w, Finished))
    case (Cut(_), _) => Some(Go(s, w, Finished))
    case _ => None
  }

  /** The leftover's own end: its lane is sealed before the end is stamped, its entry is freed before `Stopped` is
      published; an aborted task closes its plane without it. */
  function LeftoverStep(s: State, a: Action): Option<State> {
    match a
    case Seal => Some(s.(refuses := true))
    case Finalize =>
      if s.refuses && s.plane.finalAt.None? then Some(s.(plane := s.plane.(finalAt := Some(s.now)))) else None
    case Free => Some(s.(registered := false))
    case Publish =>
      if s.plane.finalAt.Some? && !s.registered && !s.plane.closed then
        Some(s.(plane := s.plane.(stopped := true)))
      else None
    case Close => if s.registered then None else Some(s.(plane := s.plane.(closed := true), refuses := true))
    case _ => None
  }

  function Next(s: State, a: Action): Option<State> {
    match a
    case Tick(nanos) => Some(s.(now := s.now + nanos))
    case ReadClock(w, own) => if w in s.sweeps then None else Some(Go(s, w, Folding(Floor(own, s.now))))
    case FoldAtOnce(w, own) =>
      if w in s.sweeps then None
      else
        var folded := Lower(s.held, Floor(own, s.now));
        Some(Go(s, w, Listing(folded)).(held := Some(folded)))
    case Clear => if NoneLive(s) then Some(s.(held := None)) else None
    case Seal | Finalize | Free | Publish | Close => LeftoverStep(s, a)
    case _ => if a.w in s.sweeps then SweepStep(s, a.w, s.sweeps[a.w], a) else None
  }

  predicate Init(s: State) {
    s.held == None && s.plane == Plane(false, false, None) && s.sweeps == map[] && s.reports == map[]
  }

  ghost predicate Run(states: seq<State>, acts: seq<Action>) {
    && |states| == |acts| + 1
    && Init(states[0])
    && forall i :: 0 <= i < |acts| ==> Next(states[i], acts[i]) == Some(states[i + 1])
  }

  // ----- One fold, one end

  /** The fold's write does not come down onto an end that was final after the clock reading its floor is from. */
  predicate FoldSafe(p: Plane, held: Option<nat>, floor: nat) {
    p.finalAt.Some? && held.Some? ==> p.finalAt.value < floor || held.value <= p.finalAt.value
  }

  /** A fold keeps the verdict of a published end if and only if it is safe; and it is safe for every end final
      no later than the clock reading the fold took. */
  lemma FoldKeepsVerdict(p: Plane, held: nat, own: nat, read: nat)
    requires p.stopped && p.finalAt.Some?
    ensures LeftoverOutcome(p, false, held) == LeftoverOutcome(p, false, Lower(Some(held), Floor(own, read)))
            <==> FoldSafe(p, Some(held), Floor(own, read))
    ensures p.finalAt.value <= read ==> FoldSafe(p, Some(held), Floor(own, read))
  {
  }

  /** The force's flag changes no verdict if and only if the end became final at or after the deadline. */
  lemma RaisedAgrees(p: Plane, deadline: nat)
    requires p.stopped && p.finalAt.Some?
    ensures LeftoverOutcome(p, true, deadline) == LeftoverOutcome(p, false, deadline) <==> p.finalAt.value >= deadline
  {
  }

  // ----- All sweeps, every interleaving

  /** What the agreement of the sweeps needs of an action: a fold that is safe, a force that is not early. */
  predicate Safe(s: State, a: Action) {
    match a
    case WriteFold(w) => w in s.sweeps && s.sweeps[w].Folding? ==> FoldSafe(s.plane, s.held, s.sweeps[w].floor)
    case Raise(w) => !s.refuses && s.held.Some? ==> s.now >= s.held.value
    case _ => true
  }

  /** The deadlines a sweep holds are no earlier than the system's, and a force that took came at or after it. */
  predicate SweepOk(s: State, pc: SweepPc) {
    match pc
    case Listing(own) => s.held.Some? && s.held.value <= own
    case Waiting(own, deadline) => s.held.Some? && s.held.value <= own && s.held.value <= deadline
    case SeenEnd(own) => s.held.Some? && s.held.value <= own && Terminal(s.plane)
    case Straggling(own) => s.held.Some? && s.held.value <= own
    case Targeted(own) => s.held.Some? && s.held.value <= own
    case Forced(own, raised) =>
      && s.held.Some? && s.held.value <= own
      && (raised ==> s.held.value <= s.now && (s.plane.finalAt.Some? ==> s.held.value <= s.plane.finalAt.value))
    case _ => true
  }

  predicate PlaneOk(s: State) {
    && (s.plane.finalAt.Some? ==> s.refuses && s.plane.finalAt.value <= s.now)
    && (s.plane.stopped ==> s.plane.finalAt.Some?)
    && (Terminal(s.plane) ==> !s.registered)
    && (s.reports != map[] ==> Terminal(s.plane))
  }

  /** The verdict by the instant alone, against the deadline held now. */
  predicate ReportsOk(s: State) {
    && (forall w, v :: w in s.reports && v in s.reports ==> s.reports[w] == s.reports[v])
    && ((exists w :: w in s.sweeps && Holds(s.sweeps[w])) ==>
          forall w :: w in s.reports ==> s.held.Some? && s.reports[w] == LeftoverOutcome(s.plane, false, s.held.value))
  }

  ghost predicate Inv(s: State) {
    && PlaneOk(s) && ReportsOk(s)
    && forall w :: w in s.sweeps ==> SweepOk(s, s.sweeps[w])
  }

  lemma FoldInv(s: State, w: nat, floor: nat)
    requires Inv(s) && FoldSafe(s.plane, s.held, floor)
    requires w in s.sweeps ==> !Holds(s.sweeps[w])
    ensures var folded := Lower(s.held, floor); Inv(Go(s, w, Listing(folded)).(held := Some(folded)))
  {
    var folded := Lower(s.held, floor);
    var s' := Go(s, w, Listing(folded)).(held := Some(folded));
    if v :| v in s'.sweeps && Holds(s'.sweeps[v]) {
      assert v in s.sweeps && Holds(s.sweeps[v]) && SweepOk(s, s.sweeps[v]);
      forall u | u in s'.reports ensures s'.reports[u] == LeftoverOutcome(s'.plane, false, folded) {
        assert s.reports[u] == LeftoverOutcome(s.plane, false, s.held.value);
      }
    }
  }

  /** The verdict a holder of the leftover would report now is the one by the instant. */
  lemma VerdictByInstant(s: State, pc: SweepPc)
    requires PlaneOk(s) && SweepOk(s, pc) && (pc.SeenEnd? || pc.Forced?) && Terminal(s.plane)
    ensures s.held.Some?
    ensures LeftoverOutcome(s.plane, pc.Forced? && pc.raised, Lower(s.held, pc.own))
            == LeftoverOutcome(s.plane, false, s.held.value)
  {
  }

  lemma ReportInv(s: State, w: nat)
    requires Inv(s) && Next(s, Report(w)).Some?
    ensures Inv(Next(s, Report(w)).value)
  {
    var s' := Next(s, Report(w)).value;
    VerdictByInstant(s, s.sweeps[w]);
    assert Holds(s.sweeps[w]);
    assert s'.reports.Keys == s.reports.Keys + {w};
    if v :| v in s'.sweeps && Holds(s'.sweeps[v]) {
      assert v in s.sweeps && Holds(s.sweeps[v]);
    }
  }

  /** A sweep moves on without reporting; it comes to hold the leftover only while that is registered. */
  lemma MoveInv(s: State, w: nat, pc: SweepPc)
    requires Inv(s) && SweepOk(s, pc)
    requires Holds(pc) ==> s.registered || (w in s.sweeps && Holds(s.sweeps[w]))
    ensures Inv(Go(s, w, pc))
  {
    var s' := Go(s, w, pc);
    if v :| v in s'.sweeps && Holds(s'.sweeps[v]) {
      if v == w {
        assert s.registered ==> s.reports == map[];
      } else {
        assert v in s.sweeps && Holds(s.sweeps[v]);
      }
    }
  }

  lemma LeftoverInv(s: State, a: Action)
    requires Inv(s) && LeftoverStep(s, a).Some?
    ensures Inv(LeftoverStep(s, a).value)
  {
    var s' := LeftoverStep(s, a).value;
    assert s.reports != map[] ==> LeftoverOutcome(s'.plane, false, 0) == LeftoverOutcome(s.plane, false, 0);
    forall w | w in s'.sweeps ensures SweepOk(s', s'.sweeps[w]) {
      assert SweepOk(s, s.sweeps[w]);
    }
    if v :| v in s'.sweeps && Holds(s'.sweeps[v]) {
      assert v in s.sweeps && Holds(s.sweeps[v]);
    }
  }

  predicate Plain(a: Action) {
    a.List? || a.Follow? || a.SeeEnd? || a.Expire? || a.FailWait? || a.LookUp? || a.Raise? || a.GiveUp? || a.Cut?
  }

  /** A step of one sweep that neither folds nor reports. */
  lemma AdvanceInv(s: State, a: Action)
    requires Inv(s) && Plain(a) && Next(s, a).Some? && Safe(s, a)
    ensures Inv(Next(s, a).value)
  {
    var pc := Next(s, a).value.sweeps[a.w];
    assert SweepOk(s, s.sweeps[a.w]);
    assert Next(s, a).value == Go(s, a.w, pc);
    MoveInv(s, a.w, pc);
  }

  lemma QuietInv(s: State, s': State)
    requires Inv(s) && s' == s.(now := s'.now, held := s'.held) && s.now <= s'.now
    requires s'.held == s.held || NoneLive(s)
    ensures Inv(s')
  {
    if v :| v in s'.sweeps && Holds(s'.sweeps[v]) {
      assert v in s.sweeps && Holds(s.sweeps[v]);
    }
    forall w | w in s'.sweeps ensures SweepOk(s', s'.sweeps[w]) {
      assert SweepOk(s, s.sweeps[w]);
    }
  }

  lemma StepInv(s: State, a: Action)
    requires Inv(s) && Next(s, a).Some? && Safe(s, a)
    ensures Inv(Next(s, a).value)
  {
    assert PlaneOk(s);
    hide Inv;
    var s' := Next(s, a).value;
    match a
    case Tick(_) => QuietInv(s, s');
    case ReadClock(w, own) => MoveInv(s, w, Folding(Floor(own, s.now)));
    case WriteFold(w) => FoldInv(s, w, s.sweeps[w].floor);
    case FoldAtOnce(w, own) => FoldInv(s, w, Floor(own, s.now));
    case Clear => QuietInv(s, s');
    case Seal | Finalize | Free | Publish | Close => LeftoverInv(s, a);
    case Report(w) => ReportInv(s, w);
    case _ => AdvanceInv(s, a);
  }

  /** In every run whose folds are safe and whose forces are not early, any two calls that report the leftover's
      end report it the same way. */
  lemma {:induction false} VerdictsAgree(states: seq<State>, acts: seq<Action>, n: nat)
    requires Run(states, acts) && n < |states|
    requires forall k :: 0 <= k < n ==> Safe(states[k], acts[k])
    ensures Inv(states[n])
    ensures forall w, v :: w in states[n].reports && v in states[n].reports ==>
        states[n].reports[w] == states[n].reports[v]
  {
    if n > 0 {
      VerdictsAgree(states, acts, n - 1);
      assert Next(states[n - 1], acts[n - 1]) == Some(states[n]);
      StepInv(states[n - 1], acts[n - 1]);
    }
  }

  // ----- Folds of one step and waits that do not fail

  predicate Strict(a: Action) { !a.ReadClock? && !a.WriteFold? && !a.FailWait? }

  /** Whoever is about to be forced has outlived the deadline. */
  predicate Overdue(s: State, pc: SweepPc) {
    (pc.Straggling? || pc.Targeted?) && s.held.Some? ==> s.held.value <= s.now
  }

  lemma OverdueStays(s: State, a: Action)
    requires Inv(s) && Next(s, a).Some? && Strict(a)
    requires forall w :: w in s.sweeps ==> Overdue(s, s.sweeps[w]) && !s.sweeps[w].Folding?
    ensures var s' := Next(s, a).value; forall w :: w in s'.sweeps ==>
        Overdue(s', s'.sweeps[w]) && !s'.sweeps[w].Folding?
  {
    var s' := Next(s, a).value;
    forall w | w in s'.sweeps ensures Overdue(s', s'.sweeps[w]) && !s'.sweeps[w].Folding? {
      if w in s.sweeps {
        assert SweepOk(s, s.sweeps[w]) && Overdue(s, s.sweeps[w]);
      }
    }
  }

  lemma StrictStepSafe(s: State, a: Action)
    requires Next(s, a).Some? && Strict(a)
    requires forall w :: w in s.sweeps ==> Overdue(s, s.sweeps[w]) && !s.sweeps[w].Folding?
    ensures Safe(s, a)
  {
    if a.Raise? {
      assert Overdue(s, s.sweeps[a.w]);
    }
  }

  lemma {:induction false} StrictRunsAreSafe(states: seq<State>, acts: seq<Action>, n: nat)
    requires Run(states, acts) && n < |states|
    requires forall k :: 0 <= k < |acts| ==> Strict(acts[k])
    ensures Inv(states[n])
    ensures forall w :: w in states[n].sweeps ==>
        Overdue(states[n], states[n].sweeps[w]) && !states[n].sweeps[w].Folding?
  {
    if n > 0 {
      StrictRunsAreSafe(states, acts, n - 1);
      assert Next(states[n - 1], acts[n - 1]) == Some(states[n]);
      StrictStepSafe(states[n - 1], acts[n - 1]);
      StepInv(states[n - 1], acts[n - 1]);
      OverdueStays(states[n - 1], acts[n - 1]);
    }
  }

  /** With each fold taken as one step and no wait task failing, all calls agree on the leftover's end, in every
      interleaving. */
  lemma StrictVerdictsAgree(states: seq<State>, acts: seq<Action>, n: nat)
    requires Run(states, acts) && n < |states|
    requires forall k :: 0 <= k < |acts| ==> Strict(acts[k])
    ensures forall w, v :: w in states[n].reports && v in states[n].reports ==>
        states[n].reports[w] == states[n].reports[v]
  {
    forall k | 0 <= k < n ensures Safe(states[k], acts[k]) {
      StrictRunsAreSafe(states, acts, k);
      assert Next(states[k], acts[k]) == Some(states[k + 1]);
      StrictStepSafe(states[k], acts[k]);
    }
    VerdictsAgree(states, acts, n);
  }

  // ----- Which deadline a sweep goes by

  /** The system held `d` at some moment since `w` had folded. */
  ghost predicate HeldOnce(states: seq<State>, n: nat, w: nat, d: nat)
    requires n < |states|
  {
    exists k :: 0 <= k <= n && w in states[k].sweeps && !states[k].sweeps[w].Folding? && states[k].held == Some(d)
  }

  /** The deadlines `w` goes by were the system's at some moment since it had folded. */
  ghost predicate ByTheSystem(states: seq<State>, n: nat, w: nat)
    requires n < |states| && w in states[n].sweeps
  {
    match states[n].sweeps[w]
    case Folding(_) => true
    case Finished => true
    case Waiting(own, deadline) => HeldOnce(states, n, w, own) && HeldOnce(states, n, w, deadline)
    case pc => HeldOnce(states, n, w, pc.own)
  }

  /** The sweep has a deadline to go by. */
  predicate Going(s: State, w: nat) { w in s.sweeps && !s.sweeps[w].Folding? && !s.sweeps[w].Finished? }

  /** Where the deadlines of a sweep are from: it had them, or the system holds them. */
  lemma DeadlinesFrom(s: State, a: Action, w: nat)
    requires Next(s, a).Some? && Going(Next(s, a).value, w)
    ensures var s' := Next(s, a).value; var pc := s'.sweeps[w];
            && ((Going(s, w) && pc.own == s.sweeps[w].own) || s'.held == Some(pc.own))
            && (pc.Waiting? && pc.deadline != pc.own ==>
                  && w in s.sweeps && s.sweeps[w].Waiting?
                  && (pc.deadline == s.sweeps[w].deadline || s.held == Some(pc.deadline)))
  {
  }

  lemma HeldStays(states: seq<State>, m: nat, n: nat, w: nat, d: nat)
    requires m <= n < |states| && HeldOnce(states, m, w, d)
    ensures HeldOnce(states, n, w, d)
  {
  }

  /** In every run: a sweep goes by deadlines the system itself held since the sweep folded: the one its verdict starts
      from, and the one it waits for. */
  lemma {:induction false} SweepsByTheSystem(states: seq<State>, acts: seq<Action>, n: nat, w: nat)
    requires Run(states, acts) && n < |states| && w in states[n].sweeps
    ensures ByTheSystem(states, n, w)
  {
    if Going(states[n], w) {
      var s, s' := states[n - 1], states[n];
      assert Next(s, acts[n - 1]) == Some(s');
      DeadlinesFrom(s, acts[n - 1], w);
      hide Next;
      if Going(s, w) {
        SweepsByTheSystem(states, acts, n - 1, w);
        HeldStays(states, n - 1, n, w, s.sweeps[w].own);
        if s.sweeps[w].Waiting? {
          HeldStays(states, n - 1, n, w, s.sweeps[w].deadline);
        }
      }
    }
  }

  /** In every run: a sweep gives up its wait only on a leftover that has not ended, and when a deadline the system held
      since the sweep folded has passed. A sweep that looks again waits no longer than the deadline held then. */
  lemma ExpiresByTheSystem(states: seq<State>, acts: seq<Action>, n: nat)
    requires Run(states, acts) && n < |acts|
    ensures acts[n].Expire? ==>
        && !Terminal(states[n].plane)
        && exists d: nat :: HeldOnce(states, n, acts[n].w, d) && d <= states[n].now
    ensures acts[n].Follow? && states[n].held.Some? ==>
        && acts[n].w in states[n + 1].sweeps && states[n + 1].sweeps[acts[n].w].Waiting?
        && states[n + 1].sweeps[acts[n].w].deadline <= states[n].held.value
  {
    assert Next(states[n], acts[n]) == Some(states[n + 1]);
    if acts[n].Expire? {
      SweepsByTheSystem(states, acts, n, acts[n].w);
      assert HeldOnce(states, n, acts[n].w, states[n].sweeps[acts[n].w].deadline);
    }
  }

  // ----- The fold as the code takes it

  /** An unsafe fold splits the verdict: when call `u` has reported the published end and call `v` has seen it,
      the fold of `w` makes `v` report it the other way. */
  lemma UnsafeFoldSplits(s: State, u: nat, v: nat, w: nat) returns (s': State)
    requires Inv(s) && s.plane.stopped && s.held.Some?
    requires u in s.reports && v in s.sweeps && s.sweeps[v].SeenEnd? && u != v
    requires w in s.sweeps && s.sweeps[w].Folding? && !FoldSafe(s.plane, s.held, s.sweeps[w].floor)
    ensures var folded := Next(s, WriteFold(w)).value;
            Next(s, WriteFold(w)).Some? && Next(folded, Report(v)) == Some(s')
    ensures u in s'.reports && v in s'.reports && s'.reports[u] != s'.reports[v]
  {
    assert Holds(s.sweeps[v]) && SweepOk(s, s.sweeps[v]);
    s' := Next(Next(s, WriteFold(w)).value, Report(v)).value;
  }

  /** The start of the two runs below: at time 0, two sweeps wait on a registered leftover until time 100. */
  function TwoWaiting(): State {
    State(0, Some(100), Plane(false, false, None), false, true, map[1 := Waiting(100, 100), 2 := Waiting(100, 100)],
          map[])
  }

  lemma TwoWaitingRun() returns (states: seq<State>, acts: seq<Action>)
    ensures Run(states, acts) && states[|acts|] == TwoWaiting()
    ensures forall k :: 0 <= k < |acts| ==> Strict(acts[k])
  {
    var s0 := State(0, None, Plane(false, false, None), false, true, map[], map[]);
    var s1 := Next(s0, FoldAtOnce(1, 100)).value;
    var s2 := Next(s1, FoldAtOnce(2, 100)).value;
    var s3 := Next(s2, List(1)).value;
    var s4 := Next(s3, List(2)).value;
    assert s1.sweeps == map[1 := Listing(100)];
    assert s2.sweeps == map[1 := Listing(100), 2 := Listing(100)];
    assert s4.sweeps == TwoWaiting().sweeps;
    states, acts := [s0, s1, s2, s3, s4], [FoldAtOnce(1, 100), FoldAtOnce(2, 100), List(1), List(2)];
  }

  /** Any run can go on with the leftover's orderly end, here and now. */
  lemma LeftoverEnds(states: seq<State>, acts: seq<Action>) returns (states': seq<State>, acts': seq<Action>)
    requires Run(states, acts) && states[|acts|].plane == Plane(false, false, None)
    ensures Run(states', acts') && |acts'| == |acts| + 4 && acts' == acts + [Seal, Finalize, Free, Publish]
    ensures var s := states[|acts|];
            states'[|acts'|] == s.(plane := Plane(true, false, Some(s.now)), refuses := true, registered := false)
  {
    var s := states[|acts|];
    var s1 := s.(refuses := true);
    var s2 := s1.(plane := Plane(false, false, Some(s.now)));
    var s3 := s2.(registered := false);
    var s4 := s3.(plane := Plane(true, false, Some(s.now)));
    states', acts' := states + [s1, s2, s3, s4], acts + [Seal, Finalize, Free, Publish];
  }

  /** A third call reads the clock at 0 and the leftover's end becomes final at 5. */
  lemma LateFolderRun() returns (states: seq<State>, acts: seq<Action>)
    ensures Run(states, acts) && forall k :: 0 <= k < |acts| ==> !acts[k].FailWait?
    ensures states[|acts|] == State(5, Some(100), Plane(true, false, Some(5)), true, false,
                                    map[1 := Waiting(100, 100), 2 := Waiting(100, 100), 3 := Folding(1)], map[])
  {
    states, acts := TwoWaitingRun();
    var a1 := Next(TwoWaiting(), ReadClock(3, 0)).value;
    assert a1.sweeps == map[1 := Waiting(100, 100), 2 := Waiting(100, 100), 3 := Folding(1)];
    states, acts := states + [a1, a1.(now := 5)], acts + [ReadClock(3, 0), Tick(5)];
    states, acts := LeftoverEnds(states, acts);
  }

  /** One call reports that end, and then the third call writes its fold. */
  lemma LateFoldRun() returns (states: seq<State>, acts: seq<Action>)
    ensures Run(states, acts) && forall k :: 0 <= k < |acts| ==> !acts[k].FailWait?
    ensures states[|acts|] == State(5, Some(1), Plane(true, false, Some(5)), true, false,
                                    map[1 := Finished, 2 := Waiting(100, 100), 3 := Listing(1)], map[1 := Graceful])
  {
    states, acts := LateFolderRun();
    var b1 := Next(states[|acts|], SeeEnd(1)).value;
    var b2 := Next(b1, Report(1)).value;
    var b3 := Next(b2, WriteFold(3)).value;
    assert b3.sweeps == map[1 := Finished, 2 := Waiting(100, 100), 3 := Listing(1)];
    states, acts := states + [b1, b2, b3], acts + [SeeEnd(1), Report(1), WriteFold(3)];
  }

  /** The fold as the code takes it, the clock read first and the deadline written later, lets two calls disagree:
      a third call reads the clock at 0, the leftover's end becomes final at 5 and one call reports it
      `Graceful`, then the third call's write lowers the deadline to 1 and the other call reports `Killed`. No
      wait task fails. */
  lemma SplitFoldDisagrees() returns (states: seq<State>, acts: seq<Action>)
    ensures Run(states, acts) && forall k :: 0 <= k < |acts| ==> !acts[k].FailWait?
    ensures var reports := states[|acts|].reports;
            1 in reports && 2 in reports && reports[1] == Graceful && reports[2] == Killed
  {
    states, acts := LateFoldRun();
    var b4 := Next(states[|acts|], SeeEnd(2)).value;
    var b5 := Next(b4, Report(2)).value;
    states, acts := states + [b4, b5], acts + [SeeEnd(2), Report(2)];
  }

  /** The wait of one call fails, its force comes early, and then the leftover ends. */
  lemma EarlyForceRun() returns (states: seq<State>, acts: seq<Action>)
    ensures Run(states, acts) && forall k :: 0 <= k < |acts| ==> !acts[k].ReadClock? && !acts[k].WriteFold?
    ensures states[|acts|] == State(0, Some(100), Plane(true, false, Some(0)), true, false,
                                    map[1 := Forced(100, true), 2 := Waiting(100, 100)], map[])
  {
    states, acts := TwoWaitingRun();
    var a1 := Next(TwoWaiting(), FailWait(1)).value;
    var a2 := Next(a1, LookUp(1)).value;
    var a3 := Next(a2, Raise(1)).value;
    assert a3.sweeps == map[1 := Forced(100, true), 2 := Waiting(100, 100)];
    states, acts := states + [a1, a2, a3], acts + [FailWait(1), LookUp(1), Raise(1)];
    states, acts := LeftoverEnds(states, acts);
  }

  /** A wait task that fails lets two calls disagree too: its leftover is forced before the deadline. */
  lemma FailedWaitDisagrees() returns (states: seq<State>, acts: seq<Action>)
    ensures Run(states, acts) && forall k :: 0 <= k < |acts| ==> !acts[k].ReadClock? && !acts[k].WriteFold?
    ensures var reports := states[|acts|].reports;
            1 in reports && 2 in reports && reports[1] == Killed && reports[2] == Graceful
  {
    states, acts := EarlyForceRun();
    var b1 := Next(states[|acts|], Report(1)).value;
    var b2 := Next(b1, SeeEnd(2)).value;
    var b3 := Next(b2, Report(2)).value;
    states, acts := states + [b1, b2, b3], acts + [Report(1), SeeEnd(2), Report(2)];
  }
}
