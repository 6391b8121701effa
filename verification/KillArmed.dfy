/** The `Kill` handshake: the raiser raises and then reads the abort handle, the attach stores the handle and
    then reads the lane, so one of the two sees the other. */
module KillArmed {
  import opened Base
  import opened Lane
  import opened Registry
  import opened Handshake
  import opened Ownership

  /** The attach has not finished. */
  predicate Attaching(pc: SpawnPc) { !Registering(pc) && !pc.TurnedAway? && !pc.Attached? }

  /** The attach has read a raised `Kill` and is on its way to arm. */
  predicate SawKill(pc: SpawnPc) { pc.ReadingIdDue? || pc.ReadingNameDue? || pc.ReadingClock? || pc.Arming? }

  predicate IsArmed(s: State, i: nat) { exists a :: a in s.armed && a.task == i }

  /** The key is the one the incarnation asked to be registered under. */
  predicate Targets(key: Key, spec: Spec) {
    match key
    case ById(id) => id == spec.id
    case ByName(name) => spec.name == Some(name)
  }

  /** The entries hold the abort handle as far as the attach has come. */
  predicate AttachOk(s: State, i: nat, inc: Inc) {
    && (SawKill(inc.pc) ==> HoldsKill(inc.lane))
    && (inc.guard.Held? && !inc.pc.Storing? ==>
          HoldsInc(s.byId, inc.spec.id, i) && s.byId[inc.spec.id].abort == Some(i))
    && (inc.guard.Held? && inc.pc.StoringName? ==> inc.pc.found)
    && (inc.guard.Held? && inc.spec.name.Some? && !inc.pc.Storing? && !inc.pc.StoringName? ==>
          HoldsInc(s.byName, inc.spec.name.value, i) && s.byName[inc.spec.name.value].abort == Some(i))
  }

  /** The lane took the raiser's `Kill`. */
  predicate Took(pc: RaiserPc) { pc.ReadingAbort? || pc.Scheduling? || pc == Finished(true) }

  /** An accepted raiser leaves an armed abort behind, or an attach that has still to read the lane. */
  predicate RaiserOk(s: State, x: Raiser) {
    && x.inc in s.incs
    && (Took(x.pc) ==> HoldsKill(s.incs[x.inc].lane))
    && (x.pc.Scheduling? ==> x.pc.task == x.inc)
    && (x.pc == Finished(true) && Targets(x.key, s.incs[x.inc].spec) && s.incs[x.inc].guard.Held? ==>
          IsArmed(s, x.inc) || Attaching(s.incs[x.inc].pc))
  }

  predicate ArmOk(s: State, a: Arm) { a.task == a.record && a.task in s.incs && HoldsKill(s.incs[a.task].lane) }

  ghost predicate Met(s: State) {
    && (forall i :: i in s.incs ==> AttachOk(s, i, s.incs[i]))
    && (forall r :: r in s.raisers ==> RaiserOk(s, s.raisers[r]))
    && (forall a :: a in s.armed ==> ArmOk(s, a))
  }

  /** How one step may move an incarnation. */
  predicate Moves(s: State, s': State, i: nat)
    requires i in s.incs && i in s'.incs
  {
    var inc, inc' := s.incs[i], s'.incs[i];
    && inc'.spec == inc.spec
    && (HoldsKill(inc.lane) ==> HoldsKill(inc'.lane))
    && (inc'.guard.Held? ==> inc.guard.Held? || inc'.pc.Storing?)
    && (inc.guard.Held? && inc'.guard.Held? && Attaching(inc.pc) && HoldsKill(inc.lane) ==>
          Attaching(inc'.pc) || IsArmed(s', i))
    && s.armed <= s'.armed
  }

  lemma RaiserStays(s: State, s': State, x: Raiser)
    requires RaiserOk(s, x) && x.inc in s'.incs && Moves(s, s', x.inc)
    ensures RaiserOk(s', x)
  {
    if IsArmed(s, x.inc) {
      var a :| a in s.armed && a.task == x.inc;
      assert a in s'.armed;
    }
  }

  lemma LaneKeepsKill(l: LaneState, op: LaneOp)
    requires HoldsKill(l)
    ensures HoldsKill(Apply(l, op))
  {
    RequestsOnlyStrengthen(l, [op], Kill);
    assert ApplyAll(Apply(l, op), []) == Apply(l, op);
    assert [op][1..] == [];
  }

  lemma AttachMoves(s: State, i: nat)
    requires i in s.incs && AttachOk(s, i, s.incs[i]) && Next(s, Advance(i)).Some?
    ensures Moves(s, Next(s, Advance(i)).value, i)
  {
    hide StoreAbort, FreeName, DueOf, EarlierDue, HoldsSerial;
    var s' := Next(s, Advance(i)).value;
    if s.incs[i].pc.Arming? {
      var at := SaturatingDeadline(s.now, AttachDelay(s.incs[i].pc.due, s.incs[i].pc.clock, s.incs[i].spec.grace));
      assert Arm(i, i, at) in s'.armed;
    }
  }

  lemma RaiserMoves(s: State, r: nat)
    requires Next(s, AdvanceRaiser(r)).Some?
    ensures s.raisers[r].inc in RaiserStep(s, r).incs && Moves(s, RaiserStep(s, r), s.raisers[r].inc)
  {
    if HoldsKill(s.incs[s.raisers[r].inc].lane) {
      LaneKeepsKill(s.incs[s.raisers[r].inc].lane, Raise(Kill));
    }
  }

  lemma ErrandMoves(s: State, q: nat)
    requires Next(s, AdvanceErrand(q)).Some? && ErrandOk(s, s.errands.all[q])
    ensures s.errands.all[q].inc in ErrandStep(s, q).incs && Moves(s, ErrandStep(s, q), s.errands.all[q].inc)
  {
    var x := s.errands.all[q];
    if x.want.ToStop? && HoldsKill(s.incs[x.inc].lane) {
      LaneKeepsKill(s.incs[x.inc].lane, Raise(x.want.reason));
    }
  }

  lemma StepMoves(s: State, a: Action)
    requires Met(s) && ErrandsOk(s) && Next(s, a).Some? && Owner(s, a).Some? && Owner(s, a).value in s.incs
    ensures Owner(s, a).value in Next(s, a).value.incs && Moves(s, Next(s, a).value, Owner(s, a).value)
  {
    assert a.Advance? ==> AttachOk(s, a.i, s.incs[a.i]);
    assert a.AdvanceErrand? ==> ErrandOk(s, s.errands.all[a.q]);
    hide RegisterStep, AttachStep, RaiserStep, ErrandStep, Met, AttachOk, ErrandsOk, ErrandOk;
    match a
    case Advance(i) => AttachMoves(s, i);
    case UseLane(i, op) =>
      if HoldsKill(s.incs[i].lane) {
        LaneKeepsKill(s.incs[i].lane, op);
      }
    case AdvanceRaiser(r) => RaiserMoves(s, r);
    case AdvanceErrand(q) => ErrandMoves(s, q);
    case _ =>
  }

  /** The attach's own step keeps the handles where the theorem needs them. */
  lemma AttachStepOk(s: State, i: nat)
    requires Mine(s, i) && AttachOk(s, i, s.incs[i]) && Attaching(s.incs[i].pc)
    ensures var s' := AttachStep(s, i); i in s'.incs && AttachOk(s', i, s'.incs[i])
  {
    if s.incs[i].guard.Held? {
      assert OwnEntry(s.byId, s.incs[i].spec.id, i, s.incs[i], s.incs[i].idDues);
    }
  }

  lemma AdvanceAttachOk(s: State, i: nat)
    requires Mine(s, i) && AttachOk(s, i, s.incs[i]) && Next(s, Advance(i)).Some?
    ensures var s' := Next(s, Advance(i)).value; i in s'.incs && AttachOk(s', i, s'.incs[i])
  {
    if Attaching(s.incs[i].pc) {
      AttachStepOk(s, i);
    }
  }

  lemma DeclareAttachOk(s: State, r: nat)
    requires r in s.raisers && s.raisers[r].pc.Declaring?
    requires Mine(s, s.raisers[r].inc) && AttachOk(s, s.raisers[r].inc, s.incs[s.raisers[r].inc])
    ensures var s' := DeclareStep(s, r, s.raisers[r].pc.clock);
            s.raisers[r].inc in s'.incs && AttachOk(s', s.raisers[r].inc, s'.incs[s.raisers[r].inc])
  {
  }

  /** Any other step of the incarnation leaves its handles alone. */
  lemma LaneAttachOk(s: State, s': State, i: nat)
    requires i in s.incs && AttachOk(s, i, s.incs[i]) && i in s'.incs && Moves(s, s', i)
    requires s'.byId == s.byId && s'.byName == s.byName
    requires s'.incs[i].pc == s.incs[i].pc && s'.incs[i].guard == s.incs[i].guard
    ensures AttachOk(s', i, s'.incs[i])
  {
  }

  lemma RaiserAttachOk(s: State, r: nat)
    requires Next(s, AdvanceRaiser(r)).Some? && Mine(s, s.raisers[r].inc)
    requires AttachOk(s, s.raisers[r].inc, s.incs[s.raisers[r].inc])
    ensures var s', i := RaiserStep(s, r), s.raisers[r].inc; i in s'.incs && AttachOk(s', i, s'.incs[i])
  {
    if s.raisers[r].pc.Declaring? {
      DeclareAttachOk(s, r);
    } else {
      RaiserMoves(s, r);
      LaneAttachOk(s, RaiserStep(s, r), s.raisers[r].inc);
    }
  }

  lemma ErrandAttachOk(s: State, q: nat)
    requires Next(s, AdvanceErrand(q)).Some? && ErrandOk(s, s.errands.all[q])
    requires AttachOk(s, s.errands.all[q].inc, s.incs[s.errands.all[q].inc])
    ensures var s', i := ErrandStep(s, q), s.errands.all[q].inc; i in s'.incs && AttachOk(s', i, s'.incs[i])
  {
    ErrandMoves(s, q);
    LaneAttachOk(s, ErrandStep(s, q), s.errands.all[q].inc);
  }

  lemma OwnAttachOk(s: State, a: Action)
    requires Owned(s) && Met(s) && Next(s, a).Some? && Owner(s, a).Some?
    ensures var s', i := Next(s, a).value, Owner(s, a).value; i in s'.incs && AttachOk(s', i, s'.incs[i])
  {
    match a
    case Advance(i) => OwnedMine(s, i); AdvanceAttachOk(s, i);
    case AdvanceRaiser(r) => OwnedMine(s, s.raisers[r].inc); RaiserAttachOk(s, r);
    case UseLane(i, _) => StepMoves(s, a); LaneAttachOk(s, Next(s, a).value, i);
    case AdvanceErrand(q) => ErrandAttachOk(s, q);
    case _ =>
  }

  /** What is not the owner's stays as it was. */
  lemma OtherAttachOk(s: State, s': State, i: nat, j: nat)
    requires Local(s, s', i) && j in s.incs && j != i && AttachOk(s, j, s.incs[j])
    ensures AttachOk(s', j, s.incs[j])
  {
  }

  /** A raiser that reads no handle under its target's own key has come before the attach's read of the lane. */
  lemma MissedHandle(s: State, x: Raiser)
    requires Mine(s, x.inc) && AttachOk(s, x.inc, s.incs[x.inc])
    requires Targets(x.key, s.incs[x.inc].spec) && s.incs[x.inc].guard.Held?
    requires !(HoldsInc(MapOf(s, x.key), KeyOf(x.key), x.inc) && MapOf(s, x.key)[KeyOf(x.key)].abort.Some?)
    ensures Attaching(s.incs[x.inc].pc)
  {
  }

  lemma FoundHandle(s: State, x: Raiser)
    requires Mine(s, x.inc)
    requires HoldsInc(MapOf(s, x.key), KeyOf(x.key), x.inc) && MapOf(s, x.key)[KeyOf(x.key)].abort.Some?
    ensures MapOf(s, x.key)[KeyOf(x.key)].abort.value == x.inc
  {
  }

  lemma OwnRaiserOk(s: State, r: nat)
    requires Next(s, AdvanceRaiser(r)).Some? && RaiserOk(s, s.raisers[r])
    requires Mine(s, s.raisers[r].inc) && AttachOk(s, s.raisers[r].inc, s.incs[s.raisers[r].inc])
    ensures RaiserOk(RaiserStep(s, r), RaiserStep(s, r).raisers[r])
  {
    var x := s.raisers[r];
    var s' := RaiserStep(s, r);
    match x.pc
    case Raising => KillIsRefusedOrStands(s.incs[x.inc].lane);
    case ReadingAbort =>
      if HoldsInc(MapOf(s, x.key), KeyOf(x.key), x.inc) && MapOf(s, x.key)[KeyOf(x.key)].abort.Some? {
        FoundHandle(s, x);
      } else if Targets(x.key, s.incs[x.inc].spec) && s.incs[x.inc].guard.Held? {
        MissedHandle(s, x);
      }
    case Scheduling(task, after) => assert Arm(task, x.inc, SaturatingDeadline(s.now, after)) in s'.armed;
    case _ =>
  }

  /** A step moves at most the raiser it names, and only adds armed aborts: its own incarnation's. */
  lemma StepShape(s: State, a: Action)
    requires Next(s, a).Some?
    ensures s.armed <= Next(s, a).value.armed
    ensures forall r :: r in s.raisers && a != AdvanceRaiser(r) ==>
                          r in Next(s, a).value.raisers && Next(s, a).value.raisers[r] == s.raisers[r]
  {
    hide RegisterStep, AttachStep, GuardStep, ErrandStep, RaiserStep;
    match a
    case Advance(i) => RegisterShape(s, i); AttachShape(s, i);
    case DropGuard(i) => GuardShape(s, i);
    case AdvanceErrand(q) => ErrandShape(s, q);
    case AdvanceRaiser(r) => RaiserShape(s, r);
    case _ =>
  }

  lemma RaiserUnmoved(s: State, s': State, i: nat, x: Raiser)
    requires RaiserOk(s, x) && Local(s, s', i) && s.armed <= s'.armed
    requires x.inc == i ==> Moves(s, s', i)
    ensures RaiserOk(s', x)
  {
    assert x.inc != i ==> s'.incs[x.inc] == s.incs[x.inc];
    if x.inc != i && s.incs[x.inc].guard.Held? && Attaching(s.incs[x.inc].pc) {
      assert Attaching(s'.incs[x.inc].pc);
    }
    RaiserStays(s, s', x);
  }

  lemma OneRaiserOk(s: State, a: Action, r: nat)
    requires Owned(s) && Met(s) && Next(s, a).Some? && Owner(s, a).Some? && r in s.raisers
    ensures r in Next(s, a).value.raisers && RaiserOk(Next(s, a).value, Next(s, a).value.raisers[r])
  {
    var i := Owner(s, a).value;
    if a == AdvanceRaiser(r) {
      OwnedMine(s, i);
      OwnRaiserOk(s, r);
    } else {
      StepTidy(s, a);
      StepShape(s, a);
      if s.raisers[r].inc == i {
        StepMoves(s, a);
      }
      RaiserUnmoved(s, Next(s, a).value, i, s.raisers[r]);
    }
  }

  /** A raiser not there before has declared nothing yet. */
  lemma NewRaiserOk(s: State, a: Action, r: nat)
    requires Next(s, a).Some? && r !in s.raisers && r in Next(s, a).value.raisers
    ensures RaiserOk(Next(s, a).value, Next(s, a).value.raisers[r])
  {
  }

  lemma StepRaisersOk(s: State, a: Action)
    requires Owned(s) && Met(s) && Next(s, a).Some? && Owner(s, a).Some?
    ensures forall r :: r in Next(s, a).value.raisers ==> RaiserOk(Next(s, a).value, Next(s, a).value.raisers[r])
  {
    forall r | r in Next(s, a).value.raisers ensures RaiserOk(Next(s, a).value, Next(s, a).value.raisers[r]) {
      if r in s.raisers {
        OneRaiserOk(s, a, r);
      } else {
        NewRaiserOk(s, a, r);
      }
    }
  }

  lemma OldArmOk(s: State, s': State, i: nat, arm: Arm)
    requires ArmOk(s, arm) && Local(s, s', i) && (i in s.incs ==> Moves(s, s', i))
    ensures ArmOk(s', arm)
  {
  }

  lemma NewArmOk(s: State, a: Action, arm: Arm)
    requires Met(s) && Next(s, a).Some? && Owner(s, a).Some?
    requires arm !in s.armed && arm in Next(s, a).value.armed
    ensures ArmOk(s, arm)
  {
    match a
    case AdvanceRaiser(r) => assert RaiserOk(s, s.raisers[r]);
    case Advance(i) => assert AttachOk(s, i, s.incs[i]);
  }

  lemma StepArmsOk(s: State, a: Action)
    requires Owned(s) && Met(s) && Next(s, a).Some? && Owner(s, a).Some?
    ensures forall arm :: arm in Next(s, a).value.armed ==> ArmOk(Next(s, a).value, arm)
  {
    StepTidy(s, a);
    if Owner(s, a).value in s.incs {
      StepMoves(s, a);
    }
    forall arm | arm in Next(s, a).value.armed ensures ArmOk(Next(s, a).value, arm) {
      if arm !in s.armed {
        NewArmOk(s, a, arm);
      }
      OldArmOk(s, Next(s, a).value, Owner(s, a).value, arm);
    }
  }

  lemma StepMet(s: State, a: Action)
    requires Owned(s) && Met(s) && Next(s, a).Some?
    ensures Met(Next(s, a).value)
  {
    var s' := Next(s, a).value;
    if a.Tick? {
      forall r | r in s'.raisers ensures RaiserOk(s', s'.raisers[r]) {
        assert Moves(s, s', s.raisers[r].inc);
        RaiserStays(s, s', s.raisers[r]);
      }
    } else {
      var i := Owner(s, a).value;
      StepTidy(s, a);
      OwnAttachOk(s, a);
      forall j | j in s'.incs && j != i ensures AttachOk(s', j, s'.incs[j]) {
        OtherAttachOk(s, s', i, j);
      }
      StepRaisersOk(s, a);
      StepArmsOk(s, a);
    }
  }

  lemma {:induction false} RunMet(states: seq<State>, acts: seq<Action>, n: nat)
    requires Run(states, acts) && n < |states|
    ensures Owned(states[n]) && Met(states[n])
  {
    if n > 0 {
      RunMet(states, acts, n - 1);
      assert Next(states[n - 1], acts[n - 1]) == Some(states[n]);
      StepOwned(states[n - 1], acts[n - 1]);
      StepMet(states[n - 1], acts[n - 1]);
    }
  }
}
