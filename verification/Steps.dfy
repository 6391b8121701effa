/** What raisers and attaches did, over every run: each declared, raised and stored where it should, and nothing holds
    them up. */
module Steps {
  import opened Base
  import opened Lane
  import opened Registry
  import opened Handshake
  import opened Ownership
  import opened KillArmed
  import opened Deadlines
  import opened Instants

  // ----- What a raiser did

  /** At step `k` raiser `r` came to declare, and found its target under its key or not. */
  predicate DeclaredAt(states: seq<State>, acts: seq<Action>, k: nat, r: nat, found: bool) {
    && k < |acts| && k < |states| && acts[k] == AdvanceRaiser(r) && r in states[k].raisers
    && states[k].raisers[r].pc.Declaring?
    && var x := states[k].raisers[r]; found == HoldsInc(MapOf(states[k], x.key), KeyOf(x.key), x.inc)
  }

  /** At step `k` it raised its `Kill`, which its target's lane took or refused. */
  predicate RaisedAt(states: seq<State>, acts: seq<Action>, k: nat, r: nat, took: bool) {
    && k < |acts| && k < |states| && acts[k] == AdvanceRaiser(r) && r in states[k].raisers
    && states[k].raisers[r].pc.Raising? && states[k].raisers[r].inc in states[k].incs
    && took == !Refuses(states[k].incs[states[k].raisers[r].inc].lane, Kill)
  }

  ghost predicate RaiserDid(states: seq<State>, acts: seq<Action>, n: nat, r: nat)
    requires n < |states| && r in states[n].raisers
  {
    var x := states[n].raisers[r];
    && (!x.pc.Clocking? && !x.pc.Declaring? ==> exists k: nat :: k < n && DeclaredAt(states, acts, k, r, x.due.Some?))
    && (x.pc.Clocking? || x.pc.Declaring? ==> x.due.None?)
    && (Took(x.pc) ==> exists k: nat :: k < n && RaisedAt(states, acts, k, r, true))
    && (x.pc == Finished(false) ==> exists k: nat :: k < n && RaisedAt(states, acts, k, r, false))
  }

  lemma DidStays(states: seq<State>, acts: seq<Action>, n: nat, r: nat, d: bool)
    ensures (exists k: nat :: k < n && DeclaredAt(states, acts, k, r, d)) ==>
              exists k: nat :: k < n + 1 && DeclaredAt(states, acts, k, r, d)
    ensures (exists k: nat :: k < n && RaisedAt(states, acts, k, r, d)) ==>
              exists k: nat :: k < n + 1 && RaisedAt(states, acts, k, r, d)
  {
    if k: nat :| k < n && DeclaredAt(states, acts, k, r, d) {
      assert k < n + 1;
    }
    if k: nat :| k < n && RaisedAt(states, acts, k, r, d) {
      assert k < n + 1;
    }
  }

  /** Where one step of its own takes a raiser. */
  lemma RaiserGoes(s: State, r: nat)
    requires r in s.raisers && s.raisers[r].inc in s.incs && !s.raisers[r].pc.Finished?
    ensures var x, x' := s.raisers[r], RaiserStep(s, r).raisers[r];
            && r in RaiserStep(s, r).raisers
            && match x.pc
               case Clocking => x'.pc.Declaring? && x'.due == x.due
               case Declaring(_) =>
                 x'.pc.Raising?
                     && (if HoldsInc(MapOf(s, x.key), KeyOf(x.key), x.inc) then x'.due.Some? else x'.due == x.due)
               case Raising =>
                 x'.due == x.due
                     && x'.pc == if Refuses(s.incs[x.inc].lane, Kill) then Finished(false) else ReadingAbort
               case ReadingAbort => x'.due == x.due && (x'.pc.Scheduling? || x'.pc == Finished(true))
               case Scheduling(_, _) => x'.due == x.due && x'.pc == Finished(true)
  {
    hide Declare, AskedDue, Accept;
  }

  lemma OwnStepDid(states: seq<State>, acts: seq<Action>, n: nat, r: nat)
    requires n + 1 < |states| && n < |acts| && acts[n] == AdvanceRaiser(r) && r in states[n].raisers
    requires Next(states[n], acts[n]) == Some(states[n + 1]) && RaiserDid(states, acts, n, r)
    ensures r in states[n + 1].raisers && RaiserDid(states, acts, n + 1, r)
  {
    hide RaiserStep, DeclaredAt, RaisedAt;
    var s, x := states[n], states[n].raisers[r];
    RaiserGoes(s, r);
    DidStays(states, acts, n, r, true);
    DidStays(states, acts, n, r, false);
    var x' := states[n + 1].raisers[r];
    if x.pc.Declaring? {
      DeclaresHere(states, acts, n, r, x'.due.Some?);
      assert n < n + 1;
    } else if x.pc.Raising? {
      RaisesHere(states, acts, n, r, x'.pc.ReadingAbort?);
      assert n < n + 1;
    }
  }

  lemma DeclaresHere(states: seq<State>, acts: seq<Action>, n: nat, r: nat, found: bool)
    requires n < |acts| && n < |states| && acts[n] == AdvanceRaiser(r) && r in states[n].raisers
    requires states[n].raisers[r].pc.Declaring?
    requires var x := states[n].raisers[r]; found == HoldsInc(MapOf(states[n], x.key), KeyOf(x.key), x.inc)
    ensures DeclaredAt(states, acts, n, r, found)
  {
  }

  lemma RaisesHere(states: seq<State>, acts: seq<Action>, n: nat, r: nat, took: bool)
    requires n < |acts| && n < |states| && acts[n] == AdvanceRaiser(r) && r in states[n].raisers
    requires states[n].raisers[r].pc.Raising? && states[n].raisers[r].inc in states[n].incs
    requires took == !Refuses(states[n].incs[states[n].raisers[r].inc].lane, Kill)
    ensures RaisedAt(states, acts, n, r, took)
  {
  }

  /** In every run: a raiser past its declaration has declared a deadline if and only if it then found its target under
      its key; and it has raised its `Kill`, which its target's lane took if the raiser goes on or ends accepted, and
      refused if it ends refused. */
  lemma {:induction false} RaisersDeclareAndRaise(states: seq<State>, acts: seq<Action>, n: nat, r: nat)
    requires Run(states, acts) && n < |states| && r in states[n].raisers
    ensures RaiserDid(states, acts, n, r)
  {
    if n > 0 {
      var s, a := states[n - 1], acts[n - 1];
      assert Next(s, a) == Some(states[n]);
      if r in s.raisers {
        RaisersDeclareAndRaise(states, acts, n - 1, r);
        if a == AdvanceRaiser(r) {
          OwnStepDid(states, acts, n - 1, r);
        } else {
          StepShape(s, a);
          DidStays(states, acts, n - 1, r, true);
          DidStays(states, acts, n - 1, r, false);
        }
      } else {
        JustBegun(s, a, r);
      }
    }
  }

  /** How many steps of its own a raiser, and a spawn, has left. */
  function RaiserLeft(pc: RaiserPc): nat {
    match pc
    case Clocking => 5
    case Declaring(_) => 4
    case Raising => 3
    case ReadingAbort => 2
    case Scheduling(_, _) => 1
    case Finished(_) => 0
  }

  function SpawnLeft(pc: SpawnPc): nat {
    match pc
    case Drawing => 10
    case ClaimingName => 9
    case ClaimingId => 8
    case Releasing => 1
    case TurnedAway => 0
    case Storing => 7
    case StoringName(_) => 6
    case ReadingLane => 5
    case ReadingIdDue => 4
    case ReadingNameDue(_) => 3
    case ReadingClock(_) => 2
    case Arming(_, _) => 1
    case Attached => 0
  }

  lemma RegisterCounts(s: State, i: nat)
    requires i in s.incs && Registering(s.incs[i].pc)
    ensures var s' := RegisterStep(s, i); i in s'.incs && SpawnLeft(s'.incs[i].pc) < SpawnLeft(s.incs[i].pc)
  {
    hide FreeName, Fresh;
  }

  lemma AttachCounts(s: State, i: nat)
    requires i in s.incs && !Registering(s.incs[i].pc) && !s.incs[i].pc.TurnedAway? && !s.incs[i].pc.Attached?
    ensures var s' := AttachStep(s, i); i in s'.incs && SpawnLeft(s'.incs[i].pc) < SpawnLeft(s.incs[i].pc)
  {
    hide StoreAbort, AttachDelay, DueOf, EarlierDue, HoldsSerial;
  }

  /** Nothing holds up a raiser or a spawn: each step of its own brings it nearer to its end. */
  lemma EachStepCounts(s: State, a: Action)
    requires Next(s, a).Some? && (a.Advance? || a.AdvanceRaiser?)
    ensures a.Advance? ==>
              a.i in s.incs && a.i in Next(s, a).value.incs
                  && SpawnLeft(Next(s, a).value.incs[a.i].pc) < SpawnLeft(s.incs[a.i].pc)
    ensures a.AdvanceRaiser? ==>
              a.r in s.raisers && a.r in Next(s, a).value.raisers
                  && RaiserLeft(Next(s, a).value.raisers[a.r].pc) < RaiserLeft(s.raisers[a.r].pc)
  {
    hide RaiserStep, RegisterStep, AttachStep;
    if a.AdvanceRaiser? {
      RaiserGoes(s, a.r);
    } else if Registering(s.incs[a.i].pc) {
      RegisterCounts(s, a.i);
    } else {
      AttachCounts(s, a.i);
    }
  }

  // ----- What an attach goes by

  /** At step `k` the attach of `i` stored its handle in the entry under its id, which was its own. */
  predicate StoredAt(states: seq<State>, acts: seq<Action>, k: nat, i: nat) {
    && k < |acts| && k < |states| && acts[k] == Advance(i) && i in states[k].incs
    && states[k].incs[i].pc.Storing? && HoldsInc(states[k].byId, states[k].incs[i].spec.id, i)
  }

  function DueAt(pc: SpawnPc): nat {
    match pc
    case ReadingNameDue(due) => due
    case ReadingClock(due) => due
    case Arming(due, _) => due
    case _ => 0
  }

  /** The attach is on its way to read the lane, or past that and to arm. */
  predicate OnIts(pc: SpawnPc) { pc == StoringName(true) || pc.ReadingLane? || SawKill(pc) }

  ghost predicate AttachDid(states: seq<State>, acts: seq<Action>, n: nat, i: nat)
    requires n < |states| && i in states[n].incs
  {
    var inc := states[n].incs[i];
    && (OnIts(inc.pc) ==> exists k: nat :: k < n && StoredAt(states, acts, k, i))
    && (DueAt(inc.pc) == 0 || DueAt(inc.pc) in Dues(inc))
  }

  /** What the entry under a key records for a registration was declared on that registration's incarnation. */
  lemma OwnDue(s: State, i: nat, k: nat)
    requires Owned(s) && i in s.incs && !s.incs[i].pc.Drawing?
    ensures DueOf(s.byId, k, s.incs[i].serial) == 0 || DueOf(s.byId, k, s.incs[i].serial) in s.incs[i].idDues
    ensures DueOf(s.byName, k, s.incs[i].serial) == 0 || DueOf(s.byName, k, s.incs[i].serial) in s.incs[i].nameDues
  {
    SerialNamesInc(s, i, k);
    OwnedMine(s, i);
  }

  lemma DuesGrow(s: State, a: Action, i: nat)
    requires Owned(s) && Timely(s) && Next(s, a).Some? && i in s.incs
    ensures i in Next(s, a).value.incs && Dues(s.incs[i]) <= Dues(Next(s, a).value.incs[i])
  {
    hide Owned, Timely, DuesOk;
    if a.Tick? {
    } else {
      OwnDuesOk(s, a);
      StepTidy(s, a);
    }
  }

  /** Where one step takes an attach: on only if it found its entry, and by a deadline it had or has just read. */
  lemma AttachGoes(s: State, i: nat)
    requires i in s.incs && Next(s, Advance(i)).Some?
    ensures var inc, s' := s.incs[i], Next(s, Advance(i)).value;
            && i in s'.incs
            && var pc, pc' := inc.pc, s'.incs[i].pc;
               && (OnIts(pc') ==> OnIts(pc) || (pc.Storing? && HoldsSerial(s.byId, inc.spec.id, inc.serial)))
               && (DueAt(pc') == DueAt(pc) || DueAt(pc') == 0 || DueAt(pc') == DueOf(s.byId, inc.spec.id, inc.serial)
                   || (inc.spec.name.Some? && DueAt(pc') == DueOf(s.byName, inc.spec.name.value, inc.serial)))
               && (Registering(pc) ==> !OnIts(pc') && DueAt(pc') == 0)
  {
    hide FreeName, Fresh, StoreAbort, AttachDelay, DueOf;
    if !Registering(s.incs[i].pc) && !s.incs[i].pc.Storing? && !s.incs[i].pc.StoringName? {
      assert AttachStep(s, i) == ReadStep(s, i);
    }
  }

  lemma OwnAttachDid(states: seq<State>, acts: seq<Action>, n: nat, i: nat)
    requires n + 1 < |states| && n < |acts| && acts[n] == Advance(i) && i in states[n].incs
    requires Next(states[n], acts[n]) == Some(states[n + 1]) && Owned(states[n]) && AttachDid(states, acts, n, i)
    requires i in states[n + 1].incs && Dues(states[n].incs[i]) <= Dues(states[n + 1].incs[i])
    ensures AttachDid(states, acts, n + 1, i)
  {
    hide Owned, Next, DueOf, StoredAt;
    var s, inc := states[n], states[n].incs[i];
    AttachGoes(s, i);
    if !Registering(inc.pc) {
      OwnDue(s, i, inc.spec.id);
      if inc.spec.name.Some? {
        OwnDue(s, i, inc.spec.name.value);
      }
      SerialNamesInc(s, i, inc.spec.id);
      if k: nat :| k < n && StoredAt(states, acts, k, i) {
        assert k < n + 1;
      } else if inc.pc.Storing? && HoldsInc(s.byId, inc.spec.id, i) {
        StoresHere(states, acts, n, i);
        assert n < n + 1;
      }
    }
  }

  lemma StoresHere(states: seq<State>, acts: seq<Action>, n: nat, i: nat)
    requires n < |acts| && n < |states| && acts[n] == Advance(i) && i in states[n].incs
    requires states[n].incs[i].pc.Storing? && HoldsInc(states[n].byId, states[n].incs[i].spec.id, i)
    ensures StoredAt(states, acts, n, i)
  {
  }

  /** In every run: an attach reads the lane, and so arms, only if it found its own entry under its id; and the deadline
      it goes by, if it found one, was declared on its own incarnation, registered still or not. */
  lemma {:induction false} AttachGoesByItsOwn(states: seq<State>, acts: seq<Action>, n: nat, i: nat)
    requires Run(states, acts) && n < |states| && i in states[n].incs
    ensures AttachDid(states, acts, n, i)
  {
    hide Owned, Timely, StoredAt;
    if n > 0 {
      var s, a := states[n - 1], acts[n - 1];
      assert Next(s, a) == Some(states[n]);
      RunTimely(states, acts, n - 1);
      if i in s.incs {
        AttachGoesByItsOwn(states, acts, n - 1, i);
        DuesGrow(s, a, i);
        if a == Advance(i) {
          OwnAttachDid(states, acts, n - 1, i);
        } else {
          OthersLeave(s, a, i);
          if k: nat :| k < n - 1 && StoredAt(states, acts, k, i) {
            assert k < n;
          }
        }
      } else {
        NewInc(s, a, i);
      }
    }
  }

  lemma NewInc(s: State, a: Action, i: nat)
    requires Next(s, a).Some? && i !in s.incs && i in Next(s, a).value.incs
    ensures Next(s, a).value.incs[i].pc.Drawing?
  {
    hide RegisterStep, AttachStep, RaiserStep, GuardStep, ErrandStep, TryRaise, Apply;
    match a
    case Advance(j) => RegisterShape(s, j); AttachShape(s, j);
    case DropGuard(j) => GuardKeeps(s, j);
    case AdvanceErrand(q) => ErrandShape(s, q);
    case AdvanceRaiser(r) => RaiserShape(s, r);
    case _ =>
  }
}
