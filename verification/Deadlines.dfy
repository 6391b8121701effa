/** The deadlines of a `Kill`: every raiser declares before it raises and the attach reads the lane before the
    deadlines, so what the attach arms by is early enough for every raise it saw. */
module Deadlines {
  import opened Base
  import opened Registry
  import opened Handshake
  import opened Ownership
  import opened KillArmed

  function Dues(inc: Inc): set<nat> { inc.idDues + inc.nameDues }

  /** `due` is early enough for every deadline in `seen` that was not declared by name. */
  predicate CoversIds(due: nat, inc: Inc) {
    && (due == 0 || due in inc.idDues)
    && forall d :: d in inc.seenDues ==> d in inc.nameDues || 1 <= due <= d
  }

  predicate Covers(due: nat, inc: Inc) {
    && (due == 0 || due in Dues(inc))
    && forall d :: d in inc.seenDues ==> 1 <= due <= d
  }

  predicate DuesOk(inc: Inc) {
    && inc.raisedDues <= Dues(inc)
    && (inc.spec.name.None? ==> inc.nameDues == {})
    && (SawKill(inc.pc) ==> inc.seenDues <= Dues(inc))
    && (inc.guard.Held? && inc.pc.ReadingNameDue? ==> CoversIds(inc.pc.due, inc))
    && (inc.guard.Held? && inc.pc.ReadingClock? ==> Covers(inc.pc.due, inc))
    && (inc.guard.Held? && inc.pc.Arming? ==> Covers(inc.pc.due, inc))
  }

  predicate DeclaredOk(s: State, x: Raiser) {
    && x.inc in s.incs
    && (x.pc.Clocking? || x.pc.Declaring? ==> x.due.None?)
    && (x.due.Some? ==> x.due.value in Dues(s.incs[x.inc]))
    && (x.due.Some? && Took(x.pc) ==> x.due.value in s.incs[x.inc].raisedDues)
  }

  ghost predicate Timely(s: State) {
    && (forall i :: i in s.incs ==> DuesOk(s.incs[i]))
    && (forall r :: r in s.raisers ==> DeclaredOk(s, s.raisers[r]))
  }

  /** What a held entry records is read exactly. */
  lemma DueRead(s: State, i: nat)
    requires Mine(s, i) && s.incs[i].guard.Held?
    ensures var inc := s.incs[i]; Records(DueOf(s.byId, inc.spec.id, inc.serial), inc.idDues)
    ensures var inc := s.incs[i];
            inc.spec.name.Some? ==> Records(DueOf(s.byName, inc.spec.name.value, inc.serial), inc.nameDues)
  {
  }

  lemma ReadDuesOk(s: State, i: nat)
    requires Mine(s, i) && DuesOk(s.incs[i]) && Attaching(s.incs[i].pc)
    ensures i in AttachStep(s, i).incs && DuesOk(AttachStep(s, i).incs[i])
  {
    var inc := s.incs[i];
    if inc.guard.Held? {
      DueRead(s, i);
    }
    hide Mine, DueOf, StoreAbort, HoldsSerial;
  }

  lemma AdvanceDuesOk(s: State, i: nat)
    requires Mine(s, i) && DuesOk(s.incs[i]) && Next(s, Advance(i)).Some?
    ensures var s' := Next(s, Advance(i)).value; i in s'.incs && DuesOk(s'.incs[i])
  {
    if Attaching(s.incs[i].pc) {
      ReadDuesOk(s, i);
    }
  }

  /** Declared deadlines are never forgotten. */
  predicate Grows(inc: Inc, inc': Inc) { Dues(inc) <= Dues(inc') && inc.raisedDues <= inc'.raisedDues }

  lemma AdvanceGrows(s: State, i: nat)
    requires Next(s, Advance(i)).Some?
    ensures var s' := Next(s, Advance(i)).value; i in s'.incs && Grows(s.incs[i], s'.incs[i])
  {
  }

  lemma DeclareDuesOk(s: State, r: nat, clock: nat)
    requires r in s.raisers && s.raisers[r].pc == Declaring(clock) && DeclaredOk(s, s.raisers[r])
    requires Mine(s, s.raisers[r].inc) && DuesOk(s.incs[s.raisers[r].inc])
    ensures var s', i := DeclareStep(s, r, clock), s.raisers[r].inc;
            i in s'.incs && DuesOk(s'.incs[i]) && Grows(s.incs[i], s'.incs[i]) && DeclaredOk(s', s'.raisers[r])
  {
  }

  lemma RaiserDuesOk(s: State, r: nat)
    requires Next(s, AdvanceRaiser(r)).Some? && DeclaredOk(s, s.raisers[r])
    requires Mine(s, s.raisers[r].inc) && DuesOk(s.incs[s.raisers[r].inc])
    ensures var s', i := RaiserStep(s, r), s.raisers[r].inc;
            i in s'.incs && DuesOk(s'.incs[i]) && Grows(s.incs[i], s'.incs[i]) && DeclaredOk(s', s'.raisers[r])
  {
    if s.raisers[r].pc.Declaring? {
      DeclareDuesOk(s, r, s.raisers[r].pc.clock);
    }
  }

  /** A step that declares nothing and reads nothing, and registers nothing. */
  lemma PlainDuesOk(s: State, a: Action)
    requires Next(s, a).Some? && Owner(s, a).Some? && !a.Advance? && !a.AdvanceRaiser? && ErrandsOk(s)
    requires Owner(s, a).value in s.incs ==> DuesOk(s.incs[Owner(s, a).value])
    ensures var s', i := Next(s, a).value, Owner(s, a).value;
            i in s'.incs && DuesOk(s'.incs[i]) && (i in s.incs ==> Grows(s.incs[i], s'.incs[i]))
  {
  }

  lemma OwnDuesOk(s: State, a: Action)
    requires Owned(s) && Timely(s) && Next(s, a).Some? && Owner(s, a).Some?
    ensures var s', i := Next(s, a).value, Owner(s, a).value;
            i in s'.incs && DuesOk(s'.incs[i]) && (i in s.incs ==> Grows(s.incs[i], s'.incs[i]))
  {
    match a
    case Advance(i) =>
      OwnedMine(s, i);
      AdvanceDuesOk(s, i);
      AdvanceGrows(s, i);
    case AdvanceRaiser(r) =>
      OwnedMine(s, s.raisers[r].inc);
      RaiserDuesOk(s, r);
    case _ => PlainDuesOk(s, a);
  }

  lemma DeclaredStays(s: State, s': State, i: nat, x: Raiser)
    requires DeclaredOk(s, x) && Local(s, s', i) && (i in s.incs ==> Grows(s.incs[i], s'.incs[i]))
    ensures DeclaredOk(s', x)
  {
  }

  lemma OneDeclaredOk(s: State, a: Action, r: nat)
    requires Owned(s) && Timely(s) && Next(s, a).Some? && Owner(s, a).Some? && r in s.raisers
    ensures r in Next(s, a).value.raisers && DeclaredOk(Next(s, a).value, Next(s, a).value.raisers[r])
  {
    if a == AdvanceRaiser(r) {
      OwnedMine(s, s.raisers[r].inc);
      RaiserDuesOk(s, r);
    } else {
      StepTidy(s, a);
      StepShape(s, a);
      OwnDuesOk(s, a);
      DeclaredStays(s, Next(s, a).value, Owner(s, a).value, s.raisers[r]);
    }
  }

  lemma NewDeclaredOk(s: State, a: Action, r: nat)
    requires Next(s, a).Some? && r !in s.raisers && r in Next(s, a).value.raisers
    ensures DeclaredOk(Next(s, a).value, Next(s, a).value.raisers[r])
  {
  }

  lemma StepTimely(s: State, a: Action)
    requires Owned(s) && Timely(s) && Next(s, a).Some?
    ensures Timely(Next(s, a).value)
  {
    if !a.Tick? {
      StepTidy(s, a);
      OwnDuesOk(s, a);
      forall r | r in Next(s, a).value.raisers ensures DeclaredOk(Next(s, a).value, Next(s, a).value.raisers[r]) {
        if r in s.raisers {
          OneDeclaredOk(s, a, r);
        } else {
          NewDeclaredOk(s, a, r);
        }
      }
    }
  }

  lemma {:induction false} RunTimely(states: seq<State>, acts: seq<Action>, n: nat)
    requires Run(states, acts) && n < |states|
    ensures Owned(states[n]) && Timely(states[n])
  {
    if n > 0 {
      RunTimely(states, acts, n - 1);
      assert Next(states[n - 1], acts[n - 1]) == Some(states[n]);
      StepOwned(states[n - 1], acts[n - 1]);
      StepTimely(states[n - 1], acts[n - 1]);
    }
  }

  /** In every run, a registered incarnation's entries record exactly the earliest deadline declared on each:
      0 if and only if none was declared. */
  lemma KillDueIsTheEarliest(states: seq<State>, acts: seq<Action>, n: nat, i: nat)
    requires Run(states, acts) && n < |states| && i in states[n].incs && states[n].incs[i].guard.Held?
    ensures var s, inc := states[n], states[n].incs[i];
            && inc.spec.id in s.byId && Records(s.byId[inc.spec.id].killDue, inc.idDues)
            && (inc.spec.name.Some? ==>
                  inc.spec.name.value in s.byName && Records(s.byName[inc.spec.name.value].killDue, inc.nameDues))
  {
    RunTimely(states, acts, n);
    OwnedMine(states[n], i);
  }

  /** When the attach of a registered incarnation arms, what it is about to arm by covers the raises it saw. */
  lemma ArmingCovers(states: seq<State>, acts: seq<Action>, n: nat, i: nat)
    requires Run(states, acts) && n < |states|
    requires i in states[n].incs && states[n].incs[i].guard.Held? && states[n].incs[i].pc.Arming?
    ensures Covers(states[n].incs[i].pc.due, states[n].incs[i])
  {
    RunTimely(states, acts, n);
    assert DuesOk(states[n].incs[i]);
  }

  /** In every run, when the attach of a registered incarnation arms, the delay it arms by, counted from the
      clock it read, is no longer than up to any deadline declared by a raiser whose `Kill` its lane read saw,
      and is up to a deadline that was declared; with none seen and none declared it is the kill grace. */
  lemma AttachArmsInTime(states: seq<State>, acts: seq<Action>, n: nat, i: nat)
    requires Run(states, acts) && n < |acts| && acts[n] == Advance(i)
    requires i in states[n].incs && states[n].incs[i].guard.Held? && states[n].incs[i].pc.Arming?
    ensures var s, inc := states[n], states[n].incs[i];
            var due, clock := inc.pc.due, inc.pc.clock;
            var delay := Min(AttachDelay(due, clock, inc.spec.grace), FAR_FUTURE);
            && Arm(i, i, s.now + delay) in states[n + 1].armed
            && (due == 0 ==> inc.seenDues == {} && delay == Min(inc.spec.grace, FAR_FUTURE))
            && (due != 0 ==> due in inc.idDues + inc.nameDues && delay == Min(Max(0, due - clock), FAR_FUTURE))
            && forall d :: d in inc.seenDues ==> delay <= Max(0, d - clock)
  {
    ArmingCovers(states, acts, n, i);
    assert Next(states[n], acts[n]) == Some(states[n + 1]);
  }

  /** In every run, what the attach sees when it reads the lane holds the declared deadline of every raiser the
      lane took before: `n` is the read, and the raises it sees are those of the state before it. */
  lemma LaneReadSeesTakenRaises(states: seq<State>, acts: seq<Action>, n: nat, i: nat, r: nat)
    requires Run(states, acts) && n < |acts| && acts[n] == Advance(i)
    requires i in states[n].incs && states[n].incs[i].pc.ReadingLane?
    requires r in states[n].raisers && states[n].raisers[r].inc == i && Took(states[n].raisers[r].pc)
    ensures states[n + 1].incs[i].pc.ReadingIdDue?
    ensures states[n].raisers[r].due.Some? ==> states[n].raisers[r].due.value in states[n + 1].incs[i].seenDues
  {
    RunTimely(states, acts, n);
    RunMet(states, acts, n);
    assert Next(states[n], acts[n]) == Some(states[n + 1]);
    assert DeclaredOk(states[n], states[n].raisers[r]);
    assert RaiserOk(states[n], states[n].raisers[r]);
  }
}
