/** When a `Kill` is enforced: the clock a raiser reads, the deadline it declares and the instant it arms by, over every
    run; and the abort that an accepted `Kill` leads to, by its raiser or by the attach, with its instant. */
module Instants {
  import opened Base
  import opened Lane
  import opened Registry
  import opened Handshake
  import opened Ownership
  import opened KillArmed
  import opened Deadlines

  /** How long after its `Kill` a raiser wants the abort: the window it gave, or the kill grace the incarnation was
      spawned with. */
  function Wait(s: State, x: Raiser): nat
    requires x.inc in s.incs
  {
    if x.window.Some? then x.window.value else s.incs[x.inc].spec.grace
  }

  // ----- The clock and the deadline of a raiser

  /** At step `k` raiser `r` read the clock as `clock`: nanoseconds since the epoch in 64 bits, at least 1. */
  predicate ClockedAt(states: seq<State>, acts: seq<Action>, k: nat, r: nat, clock: nat) {
    && k < |acts| && k < |states| && acts[k] == AdvanceRaiser(r) && r in states[k].raisers
    && states[k].raisers[r].pc.Clocking? && clock == Max(1, Min(states[k].now, U64_MAX))
  }

  /** `due` is what `r` has to declare by a clock it read before the `n`-th state: as long after it as it wants the
      abort, in 64 bits. */
  ghost predicate DueFrom(states: seq<State>, acts: seq<Action>, n: nat, r: nat, wait: nat, due: nat) {
    exists k: nat, clock: nat ::
      k < n && ClockedAt(states, acts, k, r, clock) && due == Min(clock + Min(wait, U64_MAX), U64_MAX)
  }

  ghost predicate ClockFrom(states: seq<State>, acts: seq<Action>, n: nat, r: nat, clock: nat) {
    exists k: nat :: k < n && ClockedAt(states, acts, k, r, clock)
  }

  ghost predicate RaiserTimes(states: seq<State>, acts: seq<Action>, n: nat, r: nat)
    requires n < |states| && r in states[n].raisers
  {
    var s, x := states[n], states[n].raisers[r];
    && x.inc in s.incs
    && (x.pc.Declaring? ==> ClockFrom(states, acts, n, r, x.pc.clock))
    && (x.due.Some? ==> DueFrom(states, acts, n, r, Wait(s, x), x.due.value))
    && (x.pc.Scheduling? ==> x.pc.task == x.inc && x.pc.after == Wait(s, x))
  }

  /** What an incarnation was spawned with is kept, and an attach moves by its own steps alone. */
  predicate Untouched(s: State, s': State, i: nat)
    requires i in s.incs && i in s'.incs
  {
    && s'.incs[i].spec == s.incs[i].spec && s'.incs[i].pc == s.incs[i].pc
    && s'.incs[i].seenDues == s.incs[i].seenDues && (s'.incs[i].guard.Held? ==> s.incs[i].guard.Held?)
  }

  lemma RaiserLeaves(s: State, r: nat, i: nat)
    requires r in s.raisers && s.raisers[r].inc in s.incs && i in s.incs
    ensures i in RaiserStep(s, r).incs && Untouched(s, RaiserStep(s, r), i)
  {
    hide TryRaise, Declare, AskedDue;
  }

  lemma OthersLeave(s: State, a: Action, i: nat)
    requires Next(s, a).Some? && i in s.incs && a != Advance(i)
    ensures i in Next(s, a).value.incs && Untouched(s, Next(s, a).value, i)
  {
    hide RegisterStep, AttachStep, RaiserStep, TryRaise, Apply;
    match a
    case Advance(j) => RegisterShape(s, j); AttachShape(s, j);
    case AdvanceRaiser(r) => RaiserLeaves(s, r, i);
    case _ =>
  }

  lemma SpecKept(s: State, a: Action, i: nat)
    requires Next(s, a).Some? && i in s.incs
    ensures i in Next(s, a).value.incs && Next(s, a).value.incs[i].spec == s.incs[i].spec
  {
    if a == Advance(i) {
      hide FreeName, Fresh, StoreAbort, ReadTo, AttachDelay;
    } else {
      OthersLeave(s, a, i);
    }
  }

  /** What a raiser finds under its key is its target's, with the grace its target was spawned with. */
  lemma FoundOwn(s: State, x: Raiser)
    requires Mine(s, x.inc) && HoldsInc(MapOf(s, x.key), KeyOf(x.key), x.inc)
    ensures MapOf(s, x.key)[KeyOf(x.key)].grace == s.incs[x.inc].spec.grace
    ensures var e := MapOf(s, x.key)[KeyOf(x.key)]; e.abort.Some? ==> e.abort.value == x.inc
  {
  }

  /** What one step of a raiser does to its own times. */
  lemma OwnTimes(s: State, r: nat)
    requires r in s.raisers && Mine(s, s.raisers[r].inc)
    ensures var x, x' := s.raisers[r], RaiserStep(s, r).raisers[r];
            && r in RaiserStep(s, r).raisers && x'.inc == x.inc && x'.window == x.window && x'.key == x.key
            && (x'.pc.Declaring? ==> x.pc.Clocking? && x'.pc.clock == Max(1, Min(s.now, U64_MAX)))
            && (x'.due != x.due ==>
                  x.pc.Declaring? && x'.due == Some(Min(x.pc.clock + Min(Wait(s, x), U64_MAX), U64_MAX)))
            && (x'.pc.Scheduling? ==> x.pc.ReadingAbort? && x'.pc.task == x.inc && x'.pc.after == Wait(s, x))
  {
    var x := s.raisers[r];
    if HoldsInc(MapOf(s, x.key), KeyOf(x.key), x.inc) {
      FoundOwn(s, x);
    }
    hide Mine, TryRaise, Declare;
  }

  lemma ClockStays(states: seq<State>, acts: seq<Action>, n: nat, r: nat, x: Raiser, wait: nat)
    ensures x.pc.Declaring? && ClockFrom(states, acts, n, r, x.pc.clock) ==>
              ClockFrom(states, acts, n + 1, r, x.pc.clock)
    ensures x.due.Some? && DueFrom(states, acts, n, r, wait, x.due.value) ==>
              DueFrom(states, acts, n + 1, r, wait, x.due.value)
  {
    if x.pc.Declaring? && ClockFrom(states, acts, n, r, x.pc.clock) {
      var k: nat :| k < n && ClockedAt(states, acts, k, r, x.pc.clock);
      assert k < n + 1;
    }
    if x.due.Some? && DueFrom(states, acts, n, r, wait, x.due.value) {
      var k: nat, clock: nat :| k < n && ClockedAt(states, acts, k, r, clock)
                                && x.due.value == Min(clock + Min(wait, U64_MAX), U64_MAX);
      assert k < n + 1;
    }
  }

  lemma OwnStepTimes(states: seq<State>, acts: seq<Action>, n: nat, r: nat)
    requires n + 1 < |states| && n < |acts| && acts[n] == AdvanceRaiser(r) && r in states[n].raisers
    requires Next(states[n], acts[n]) == Some(states[n + 1]) && Mine(states[n], states[n].raisers[r].inc)
    requires RaiserTimes(states, acts, n, r)
    ensures r in states[n + 1].raisers && RaiserTimes(states, acts, n + 1, r)
  {
    var s, s', x := states[n], states[n + 1], states[n].raisers[r];
    OwnTimes(s, r);
    SpecKept(s, acts[n], x.inc);
    ClockStays(states, acts, n, r, x, Wait(s, x));
    hide Mine, RaiserStep;
    var x' := s'.raisers[r];
    if x'.pc.Declaring? {
      assert ClockedAt(states, acts, n, r, x'.pc.clock);
    }
    if x'.due != x.due {
      var k: nat :| k < n && ClockedAt(states, acts, k, r, x.pc.clock);
      assert k < n + 1;
    }
  }

  /** In every run: the clock a raiser goes by is one it read, the deadline it declared is that clock and the wait it
      wants, and the delay it is about to arm by is that wait, on its own target's task. */
  lemma {:induction false} RunTimes(states: seq<State>, acts: seq<Action>, n: nat, r: nat)
    requires Run(states, acts) && n < |states| && r in states[n].raisers
    ensures RaiserTimes(states, acts, n, r)
  {
    hide Owned, Met, Mine, Timely;
    if n > 0 {
      var s, a := states[n - 1], acts[n - 1];
      assert Next(s, a) == Some(states[n]);
      RunMet(states, acts, n - 1);
      if r in s.raisers {
        RunTimes(states, acts, n - 1, r);
        var x := s.raisers[r];
        if a == AdvanceRaiser(r) {
          OwnedMine(s, x.inc);
          OwnStepTimes(states, acts, n - 1, r);
        } else {
          StepShape(s, a);
          SpecKept(s, a, x.inc);
          ClockStays(states, acts, n - 1, r, x, Wait(s, x));
        }
      } else {
        JustBegun(s, a, r);
      }
    }
  }

  lemma JustBegun(s: State, a: Action, r: nat)
    requires Next(s, a).Some? && r !in s.raisers && r in Next(s, a).value.raisers
    ensures var x := Next(s, a).value.raisers[r]; x.inc in Next(s, a).value.incs && x.pc.Clocking? && x.due.None?
  {
    hide RegisterStep, AttachStep, GuardStep, ErrandStep, RaiserStep, TryRaise, Apply;
    match a
    case Advance(i) => RegisterShape(s, i); AttachShape(s, i);
    case DropGuard(i) => GuardShape(s, i);
    case AdvanceErrand(q) => ErrandShape(s, q);
    case AdvanceRaiser(p) => RaiserShape(s, p);
    case _ =>
  }

  /** In every run: a raiser's declared deadline is as long after a clock it read as it wants the abort, its window
      before the kill grace, in 64 bits; and whoever it declares to is its target. */
  lemma DeclaresWhatItWants(states: seq<State>, acts: seq<Action>, n: nat, r: nat)
    requires Run(states, acts) && n < |states| && r in states[n].raisers && states[n].raisers[r].due.Some?
    ensures states[n].raisers[r].inc in states[n].incs
    ensures var x := states[n].raisers[r]; DueFrom(states, acts, n, r, Wait(states[n], x), x.due.value)
    ensures states[n].raisers[r].due.value in Dues(states[n].incs[states[n].raisers[r].inc])
  {
    RunTimes(states, acts, n, r);
    RunTimely(states, acts, n);
    assert DeclaredOk(states[n], states[n].raisers[r]);
  }

  // ----- The instants armed by

  /** At step `k` raiser `r` armed `arm`, and nothing else: its wait after that step, on its target's own task through
      its target's own record. */
  predicate RaiserArmedAt(states: seq<State>, acts: seq<Action>, k: nat, r: nat, arm: Arm) {
    && k < |acts| && k + 1 < |states| && acts[k] == AdvanceRaiser(r)
    && r in states[k].raisers && states[k].raisers[r].pc.Scheduling? && states[k].raisers[r].inc in states[k].incs
    && arm.task == arm.record == states[k].raisers[r].inc
    && arm.at == states[k].now + Min(Wait(states[k], states[k].raisers[r]), FAR_FUTURE)
    && states[k + 1].armed == states[k].armed + {arm}
  }

  /** At step `k` the attach of its incarnation armed it, and nothing else: the kill grace after that step when it had
      found no deadline, and else as long as there was to the deadline when it read its clock. */
  predicate AttachArmedAt(states: seq<State>, acts: seq<Action>, k: nat, arm: Arm) {
    && k < |acts| && k + 1 < |states| && acts[k] == Advance(arm.task) && arm.task == arm.record
    && arm.task in states[k].incs && states[k].incs[arm.task].pc.Arming?
    && states[k + 1].armed == states[k].armed + {arm}
    && var inc := states[k].incs[arm.task];
       arm.at == states[k].now +
                 Min(if inc.pc.due == 0 then inc.spec.grace else Max(0, inc.pc.due - inc.pc.clock), FAR_FUTURE)
  }

  ghost predicate ArmedAt(states: seq<State>, acts: seq<Action>, k: nat, arm: Arm) {
    AttachArmedAt(states, acts, k, arm) || exists r :: RaiserArmedAt(states, acts, k, r, arm)
  }

  /** In every run: a raiser that schedules arms exactly one abort, its wait from that step on. */
  lemma RaiserArms(states: seq<State>, acts: seq<Action>, n: nat, r: nat)
    requires Run(states, acts) && n < |acts| && acts[n] == AdvanceRaiser(r)
    requires r in states[n].raisers && states[n].raisers[r].pc.Scheduling?
    ensures states[n].raisers[r].inc in states[n].incs
    ensures var i, wait := states[n].raisers[r].inc, Wait(states[n], states[n].raisers[r]);
            RaiserArmedAt(states, acts, n, r, Arm(i, i, states[n].now + Min(wait, FAR_FUTURE)))
  {
    RunTimes(states, acts, n, r);
    assert Next(states[n], acts[n]) == Some(states[n + 1]);
  }

  /** In every run: an attach that arms does so once. */
  lemma AttachArms(states: seq<State>, acts: seq<Action>, n: nat, i: nat)
    requires Run(states, acts) && n < |acts| && acts[n] == Advance(i)
    requires i in states[n].incs && states[n].incs[i].pc.Arming?
    ensures var inc := states[n].incs[i];
            var wait := if inc.pc.due == 0 then inc.spec.grace else Max(0, inc.pc.due - inc.pc.clock);
            AttachArmedAt(states, acts, n, Arm(i, i, states[n].now + Min(wait, FAR_FUTURE)))
    ensures states[n + 1].incs[i].pc.Attached?
  {
    assert Next(states[n], acts[n]) == Some(states[n + 1]);
  }

  /** At step `k` the attach of `i` read the clock as `clock`. */
  predicate AttachClockedAt(states: seq<State>, acts: seq<Action>, k: nat, i: nat, clock: nat) {
    && k < |acts| && k < |states| && acts[k] == Advance(i) && i in states[k].incs
    && states[k].incs[i].pc.ReadingClock? && clock == Max(1, Min(states[k].now, U64_MAX))
  }

  /** In every run: the clock an attach counts its delay from is one it read. */
  lemma {:induction false} AttachClock(states: seq<State>, acts: seq<Action>, n: nat, i: nat) returns (k: nat)
    requires Run(states, acts) && n < |states| && i in states[n].incs && states[n].incs[i].pc.Arming?
    ensures k < n && AttachClockedAt(states, acts, k, i, states[n].incs[i].pc.clock)
  {
    var s, a := states[n - 1], acts[n - 1];
    assert Next(s, a) == Some(states[n]);
    ArmingComes(s, a, i);
    if a == Advance(i) {
      k := n - 1;
    } else {
      k := AttachClock(states, acts, n - 1, i);
    }
  }

  lemma ArmingComes(s: State, a: Action, i: nat)
    requires Next(s, a).Some? && i in Next(s, a).value.incs && Next(s, a).value.incs[i].pc.Arming?
    ensures i in s.incs
    ensures var inc, inc' := s.incs[i], Next(s, a).value.incs[i];
            if a == Advance(i) then inc.pc.ReadingClock? && inc'.pc.clock == Max(1, Min(s.now, U64_MAX))
            else inc'.pc == inc.pc
  {
    hide StoreAbort, FreeName, DueOf, EarlierDue, Fresh, TryRaise, Apply, RaiserStep;
    if a.AdvanceRaiser? {
      RaiserShape(s, a.r);
    }
    if i in s.incs && a != Advance(i) {
      OthersLeave(s, a, i);
    }
  }

  /** A step arms nothing but where it should. */
  lemma NothingElseArms(s: State, a: Action)
    requires Next(s, a).Some?
    requires a.AdvanceRaiser? && a.r in s.raisers ==> !s.raisers[a.r].pc.Scheduling?
    requires a.Advance? && a.i in s.incs ==> !s.incs[a.i].pc.Arming?
    ensures Next(s, a).value.armed == s.armed
  {
    hide StoreAbort, FreeName, DueOf, EarlierDue, TryRaise, Declare, AskedDue, Apply;
  }

  /** In every run: every armed abort was armed at some step, by a raiser or by the attach, with its instant. */
  lemma {:induction false} EveryArm(states: seq<State>, acts: seq<Action>, n: nat, arm: Arm) returns (k: nat)
    requires Run(states, acts) && n < |states| && arm in states[n].armed
    ensures k < n && ArmedAt(states, acts, k, arm)
  {
    var s, a := states[n - 1], acts[n - 1];
    assert Next(s, a) == Some(states[n]);
    if arm in s.armed {
      k := EveryArm(states, acts, n - 1, arm);
    } else {
      k := n - 1;
      if a.AdvanceRaiser? && a.r in s.raisers && s.raisers[a.r].pc.Scheduling? {
        RaiserArms(states, acts, n - 1, a.r);
        assert RaiserArmedAt(states, acts, n - 1, a.r, arm);
      } else if a.Advance? && a.i in s.incs && s.incs[a.i].pc.Arming? {
        AttachArms(states, acts, n - 1, a.i);
      } else {
        NothingElseArms(s, a);
      }
    }
  }

  // ----- An accepted `Kill` is enforced

  /** The deadline raiser `x` declared, if it did, is among those the attach of `inc` saw. */
  predicate Sees(inc: Inc, x: Raiser) { x.due.Some? ==> x.due.value in inc.seenDues }

  /** Raiser `r` armed its target's abort itself, or the target's attach did, having seen what `r` declared. */
  ghost predicate Enforced(states: seq<State>, acts: seq<Action>, n: nat, r: nat, x: Raiser) {
    || (exists k: nat, arm: Arm :: k < n && RaiserArmedAt(states, acts, k, r, arm) && arm.task == x.inc)
    || (exists k: nat, arm: Arm ::
          k < n && AttachArmedAt(states, acts, k, arm) && arm.task == x.inc && Sees(states[k].incs[x.inc], x)
          && states[k].incs[x.inc].guard.Held?)
  }

  /** The attach has still to read the lane. */
  predicate BeforeRead(pc: SpawnPc) { pc.Storing? || pc.StoringName? || pc.ReadingLane? }

  /** Enforced, or the attach will see to it. */
  ghost predicate WillBe(states: seq<State>, acts: seq<Action>, n: nat, r: nat)
    requires n < |states| && r in states[n].raisers && states[n].raisers[r].inc in states[n].incs
  {
    var x := states[n].raisers[r];
    var inc := states[n].incs[x.inc];
    Enforced(states, acts, n, r, x) || BeforeRead(inc.pc) || (SawKill(inc.pc) && Sees(inc, x))
  }

  lemma EnforcedStays(states: seq<State>, acts: seq<Action>, n: nat, r: nat, x: Raiser)
    requires Enforced(states, acts, n, r, x)
    ensures Enforced(states, acts, n + 1, r, x)
  {
    if k: nat, arm: Arm :| k < n && RaiserArmedAt(states, acts, k, r, arm) && arm.task == x.inc {
      assert k < n + 1;
    } else {
      var k: nat, arm: Arm :| k < n && AttachArmedAt(states, acts, k, arm) && arm.task == x.inc
                              && Sees(states[k].incs[x.inc], x) && states[k].incs[x.inc].guard.Held?;
      assert k < n + 1;
    }
  }

  /** Whoever reads no handle under its target's key comes before the attach's read of the lane. */
  lemma MissedEarly(s: State, x: Raiser)
    requires Mine(s, x.inc) && AttachOk(s, x.inc, s.incs[x.inc])
    requires Targets(x.key, s.incs[x.inc].spec) && s.incs[x.inc].guard.Held?
    requires !(HoldsInc(MapOf(s, x.key), KeyOf(x.key), x.inc) && MapOf(s, x.key)[KeyOf(x.key)].abort.Some?)
    ensures BeforeRead(s.incs[x.inc].pc)
  {
  }

  /** The step a raiser finishes by. */
  lemma RaiserEnforces(states: seq<State>, acts: seq<Action>, n: nat, r: nat)
    requires Run(states, acts) && n < |acts| && acts[n] == AdvanceRaiser(r)
    requires r in states[n + 1].raisers && states[n + 1].raisers[r].pc == Finished(true)
    requires var x := states[n + 1].raisers[r];
             x.inc in states[n + 1].incs && Targets(x.key, states[n + 1].incs[x.inc].spec)
                 && states[n + 1].incs[x.inc].guard.Held?
    ensures WillBe(states, acts, n + 1, r)
  {
    hide Owned, Met, Mine, Timely;
    var s, s' := states[n], states[n + 1];
    assert Next(s, acts[n]) == Some(s');
    RunMet(states, acts, n);
    var x := s.raisers[r];
    OwnedMine(s, x.inc);
    OwnTimes(s, r);
    RaiserLeaves(s, r, x.inc);
    if x.pc.Scheduling? {
      RaiserArms(states, acts, n, r);
      assert n < n + 1;
    } else {
      MetAttach(s, x.inc);
      MissedEarly(s, x);
    }
  }

  lemma MetAttach(s: State, i: nat)
    requires Met(s) && i in s.incs
    ensures AttachOk(s, i, s.incs[i])
  {
  }

  /** One step of the attach, with a raiser finished before it whose `Kill` stands. */
  lemma AttachGoesOn(s: State, i: nat, x: Raiser)
    requires i in s.incs && Next(s, Advance(i)).Some? && AttachOk(s, i, s.incs[i]) && s.incs[i].guard.Held?
    requires HoldsKill(s.incs[i].lane) && (x.due.Some? ==> x.due.value in s.incs[i].raisedDues)
    requires BeforeRead(s.incs[i].pc) || (SawKill(s.incs[i].pc) && Sees(s.incs[i], x))
    ensures var inc' := Next(s, Advance(i)).value.incs[i];
            || BeforeRead(inc'.pc) || (SawKill(inc'.pc) && Sees(inc', x))
            || (s.incs[i].pc.Arming? && Sees(s.incs[i], x))
  {
    hide StoreAbort, FreeName, DueOf, EarlierDue;
  }

  lemma {:induction false} RunEnforces(states: seq<State>, acts: seq<Action>, n: nat, r: nat)
    requires Run(states, acts) && n < |states| && r in states[n].raisers && states[n].raisers[r].pc == Finished(true)
    requires var x := states[n].raisers[r];
             x.inc in states[n].incs && Targets(x.key, states[n].incs[x.inc].spec) && states[n].incs[x.inc].guard.Held?
    ensures WillBe(states, acts, n, r)
  {
    hide Owned, Met, Mine, Timely, RaiserArmedAt, AttachArmedAt;
    var s', s, a := states[n], states[n - 1], acts[n - 1];
    assert Next(s, a) == Some(s');
    if a == AdvanceRaiser(r) {
      RaiserEnforces(states, acts, n - 1, r);
    } else {
      RunMet(states, acts, n - 1);
      RunTimely(states, acts, n - 1);
      if r !in s.raisers {
        JustBegun(s, a, r);
      }
      StepShape(s, a);
      var x := s.raisers[r];
      FinishedFacts(s, r);
      MetAttach(s, x.inc);
      SpecKept(s, a, x.inc);
      StillHeld(s, a, x.inc);
      if s.incs[x.inc].guard.Held? {
        RunEnforces(states, acts, n - 1, r);
        WillStillBe(states, acts, n - 1, r);
      }
    }
  }

  lemma WillStillBe(states: seq<State>, acts: seq<Action>, n: nat, r: nat)
    requires Run(states, acts) && n < |acts| && acts[n] != AdvanceRaiser(r)
    requires r in states[n].raisers && states[n].raisers[r].inc in states[n].incs && WillBe(states, acts, n, r)
    requires r in states[n + 1].raisers && states[n + 1].raisers[r] == states[n].raisers[r]
    requires var x, s := states[n].raisers[r], states[n];
             && AttachOk(s, x.inc, s.incs[x.inc]) && s.incs[x.inc].guard.Held? && HoldsKill(s.incs[x.inc].lane)
             && (x.due.Some? ==> x.due.value in s.incs[x.inc].raisedDues) && x.inc in states[n + 1].incs
    ensures WillBe(states, acts, n + 1, r)
  {
    hide RaiserArmedAt, AttachArmedAt, AttachOk, HoldsKill;
    var s, s', a := states[n], states[n + 1], acts[n];
    assert Next(s, a) == Some(s');
    var x := s.raisers[r];
    if Enforced(states, acts, n, r, x) {
      EnforcedStays(states, acts, n, r, x);
    } else if a == Advance(x.inc) {
      AttachGoesOn(s, x.inc, x);
      if s.incs[x.inc].pc.Arming? {
        AttachArms(states, acts, n, x.inc);
        assert n < n + 1;
      }
    } else {
      OthersLeave(s, a, x.inc);
    }
  }

  lemma FinishedFacts(s: State, r: nat)
    requires Met(s) && Timely(s) && r in s.raisers && s.raisers[r].pc == Finished(true)
    ensures var x := s.raisers[r];
            && x.inc in s.incs && HoldsKill(s.incs[x.inc].lane)
            && (x.due.Some? ==> x.due.value in s.incs[x.inc].raisedDues)
  {
    assert RaiserOk(s, s.raisers[r]) && DeclaredOk(s, s.raisers[r]);
  }

  /** No step takes a guard up but the one that registers. */
  lemma StillHeld(s: State, a: Action, i: nat)
    requires Next(s, a).Some? && i in s.incs && i in Next(s, a).value.incs && Next(s, a).value.incs[i].guard.Held?
    ensures s.incs[i].guard.Held? || Next(s, a).value.incs[i].pc.Storing?
  {
    if a != Advance(i) {
      OthersLeave(s, a, i);
    } else {
      hide FreeName, StoreAbort, ReadTo, AttachDelay;
    }
  }

  /** What an abort armed for raiser `r` at step `k` promises: it is `r`'s own, its wait after that step; or it is the
      attach's, and no later after that step than up to the deadline `r` declared, counted from the clock it read. */
  predicate InTime(states: seq<State>, acts: seq<Action>, k: nat, r: nat, x: Raiser, arm: Arm) {
    || RaiserArmedAt(states, acts, k, r, arm)
    || (AttachArmedAt(states, acts, k, arm)
        && (x.due.Some? ==> arm.at <= states[k].now + Max(0, x.due.value - states[k].incs[arm.task].pc.clock)))
  }

  /** In every interleaving of any number of by-id and by-name raisers with the attach: while the incarnation is
      registered, once its attach and an accepted raiser have finished, an abort is armed on its own task, through its
      own record, at a step and for an instant as that raiser wants it. */
  lemma AcceptedKillIsArmed(states: seq<State>, acts: seq<Action>, n: nat, i: nat, r: nat) returns (k: nat, arm: Arm)
    requires Run(states, acts) && n < |states|
    requires var s := states[n];
             && i in s.incs && s.incs[i].guard.Held? && s.incs[i].pc.Attached?
             && r in s.raisers && s.raisers[r].inc == i && Targets(s.raisers[r].key, s.incs[i].spec)
             && s.raisers[r].pc == Finished(true)
    ensures k < n && arm.task == arm.record == i && arm in states[n].armed
    ensures InTime(states, acts, k, r, states[n].raisers[r], arm)
  {
    hide Covers, RaiserArmedAt;
    var x := states[n].raisers[r];
    RunEnforces(states, acts, n, r);
    if k': nat, arm': Arm :| k' < n && RaiserArmedAt(states, acts, k', r, arm') && arm'.task == i {
      k, arm := k', arm';
    } else {
      var k': nat, arm': Arm :| k' < n && AttachArmedAt(states, acts, k', arm') && arm'.task == i
                      && Sees(states[k'].incs[i], x) && states[k'].incs[i].guard.Held?;
      k, arm := k', arm';
      ArmingCovers(states, acts, k, i);
      CoversSeen(states[k].incs[i], x);
    }
    JustArmed(states, acts, k, r, arm);
    ArmsStay(states, acts, k + 1, n, arm);
  }

  lemma CoversSeen(inc: Inc, x: Raiser)
    requires inc.pc.Arming? && Covers(inc.pc.due, inc) && Sees(inc, x)
    ensures x.due.Some? ==> 1 <= inc.pc.due <= x.due.value
  {
  }

  lemma JustArmed(states: seq<State>, acts: seq<Action>, k: nat, r: nat, arm: Arm)
    requires RaiserArmedAt(states, acts, k, r, arm) || AttachArmedAt(states, acts, k, arm)
    ensures k + 1 < |states| && arm in states[k + 1].armed && arm.task == arm.record
  {
  }

  lemma {:induction false} ArmsStay(states: seq<State>, acts: seq<Action>, m: nat, n: nat, arm: Arm)
    requires Run(states, acts) && m <= n < |states| && arm in states[m].armed
    ensures arm in states[n].armed
    decreases n - m
  {
    hide Next;
    if m < n {
      ArmsStay(states, acts, m, n - 1, arm);
      assert Next(states[n - 1], acts[n - 1]) == Some(states[n]);
      StepShape(states[n - 1], acts[n - 1]);
    }
  }

  /** In every run: an armed abort is on the task of the record's own incarnation, on whose lane a `Kill` stands, and it
      was armed at some step for an instant no earlier than that step. */
  lemma ArmedOnlyOnKilled(states: seq<State>, acts: seq<Action>, n: nat, arm: Arm) returns (k: nat)
    requires Run(states, acts) && n < |states| && arm in states[n].armed
    ensures arm.task == arm.record && arm.task in states[n].incs && HoldsKill(states[n].incs[arm.task].lane)
    ensures k < n && ArmedAt(states, acts, k, arm) && states[k].now <= arm.at
  {
    RunMet(states, acts, n);
    assert ArmOk(states[n], arm);
    k := EveryArm(states, acts, n, arm);
  }
}
