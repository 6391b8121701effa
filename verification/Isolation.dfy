/** Incarnations that share an id or a name do not reach each other. */
module Isolation {
  import opened Base
  import opened Registry
  import opened Handshake
  import opened Ownership
  import opened KillArmed

  /** Everything there is of incarnation `j`: its entries with their abort handles and declared deadlines, its
      spawn, guard and lane, and the aborts armed and issued on its task. */
  datatype View = View(byId: map<nat, Entry>, byName: map<nat, Entry>, inc: Option<Inc>, arms: set<Arm>,
                       aborts: set<Arm>)

  function EntriesOf(m: map<nat, Entry>, j: nat): map<nat, Entry> {
    map k | k in m && m[k].inc == j :: m[k]
  }

  function ViewOf(s: State, j: nat): View {
    View(EntriesOf(s.byId, j), EntriesOf(s.byName, j), if j in s.incs then Some(s.incs[j]) else None,
         set a | a in s.armed && a.task == j, set a | a in s.errands.aborted && a.task == j)
  }

  lemma LocalEntries(m: map<nat, Entry>, m': map<nat, Entry>, i: nat, j: nat)
    requires LocalMap(m, m', i) && i != j
    ensures EntriesOf(m, j) == EntriesOf(m', j)
  {
    assert forall k :: k in m && m[k].inc == j <==> k in m' && m'[k].inc == j;
  }

  lemma RaiserArmsOwn(s: State, r: nat, j: nat)
    requires r in s.raisers && RaiserOk(s, s.raisers[r]) && Next(s, AdvanceRaiser(r)).Some? && s.raisers[r].inc != j
    ensures forall arm :: arm in RaiserStep(s, r).armed && arm.task == j ==> arm in s.armed
  {
  }

  lemma StepArmsOwn(s: State, a: Action, j: nat)
    requires Owned(s) && Met(s) && Next(s, a).Some? && Owner(s, a) != Some(j)
    ensures forall arm :: arm in Next(s, a).value.armed && arm.task == j ==> arm in s.armed
  {
    hide RegisterStep, AttachStep, GuardStep, ErrandStep, RaiserStep, Owned, AttachOk, ArmOk;
    match a
    case Advance(i) => RegisterShape(s, i); AttachShape(s, i);
    case DropGuard(i) => GuardShape(s, i);
    case AdvanceErrand(q) => ErrandShape(s, q);
    case AdvanceRaiser(r) => RaiserArmsOwn(s, r, j);
    case _ =>
  }

  lemma ErrandAbortsOwn(s: State, q: nat, j: nat)
    requires Next(s, AdvanceErrand(q)).Some? && ErrandOk(s, s.errands.all[q]) && s.errands.all[q].inc != j
    ensures s.errands.aborted <= ErrandStep(s, q).errands.aborted
    ensures forall arm :: arm in ErrandStep(s, q).errands.aborted && arm.task == j ==> arm in s.errands.aborted
  {
  }

  lemma StepAbortsOwn(s: State, a: Action, j: nat)
    requires ErrandsOk(s) && Next(s, a).Some? && Owner(s, a) != Some(j)
    ensures s.errands.aborted <= Next(s, a).value.errands.aborted
    ensures forall arm :: arm in Next(s, a).value.errands.aborted && arm.task == j ==> arm in s.errands.aborted
  {
    if a.AdvanceErrand? {
      ErrandAbortsOwn(s, a.q, j);
    } else {
      assert Next(s, a).value.errands.aborted == s.errands.aborted;
    }
  }

  lemma SameArms(a: set<Arm>, b: set<Arm>, j: nat)
    requires a <= b && forall arm :: arm in b && arm.task == j ==> arm in a
    ensures (set arm | arm in a && arm.task == j) == (set arm | arm in b && arm.task == j)
  {
  }

  lemma SameView(s: State, s': State, i: nat, j: nat)
    requires LocalMap(s.byId, s'.byId, i) && LocalMap(s.byName, s'.byName, i) && i != j
    requires (j in s.incs <==> j in s'.incs) && (j in s.incs ==> s'.incs[j] == s.incs[j])
    requires s.armed <= s'.armed && forall arm :: arm in s'.armed && arm.task == j ==> arm in s.armed
    requires s.errands.aborted <= s'.errands.aborted
    requires forall arm :: arm in s'.errands.aborted && arm.task == j ==> arm in s.errands.aborted
    ensures ViewOf(s', j) == ViewOf(s, j)
  {
    LocalEntries(s.byId, s'.byId, i, j);
    LocalEntries(s.byName, s'.byName, i, j);
    SameArms(s.armed, s'.armed, j);
    SameArms(s.errands.aborted, s'.errands.aborted, j);
  }

  lemma StepIsolated(s: State, a: Action, j: nat)
    requires Owned(s) && Met(s) && Next(s, a).Some? && Owner(s, a) != Some(j)
    ensures ViewOf(Next(s, a).value, j) == ViewOf(s, j)
  {
    if !a.Tick? {
      var s', i := Next(s, a).value, Owner(s, a).value;
      StepTidy(s, a);
      StepArmsOwn(s, a, j);
      StepAbortsOwn(s, a, j);
      StepShape(s, a);
      SameView(s, s', i, j);
    }
  }

  /** Over any stretch of any run, registrations, guard drops, attaches, kills and stops started on other
      incarnations leave all there is of `j` unchanged, whichever ids and names they share with it. */
  lemma {:induction false} OthersOutOfReach(states: seq<State>, acts: seq<Action>, m: nat, n: nat, j: nat)
    requires Run(states, acts) && m <= n < |states|
    requires forall k :: m <= k < n ==> Owner(states[k], acts[k]) != Some(j)
    ensures ViewOf(states[n], j) == ViewOf(states[m], j)
    decreases n - m
  {
    if m < n {
      OthersOutOfReach(states, acts, m, n - 1, j);
      RunMet(states, acts, n - 1);
      assert Next(states[n - 1], acts[n - 1]) == Some(states[n]);
      StepIsolated(states[n - 1], acts[n - 1], j);
    }
  }

  /** In every run, an incarnation has an id entry exactly while its guard holds it, and a name entry exactly
      while its registration or its guard holds it: a refused registration and a freed guard leave nothing. */
  lemma EntriesFollowTheGuard(states: seq<State>, acts: seq<Action>, n: nat, i: nat, k: nat)
    requires Run(states, acts) && n < |states| && i in states[n].incs
    ensures HoldsInc(states[n].byId, k, i) <==> states[n].incs[i].guard.Held? && k == states[n].incs[i].spec.id
    ensures HoldsInc(states[n].byName, k, i) <==> NameHeld(states[n].incs[i]) && states[n].incs[i].spec.name == Some(k)
    ensures states[n].incs[i].pc.TurnedAway? || states[n].incs[i].guard.Freed? ==>
              !HoldsInc(states[n].byId, k, i) && !HoldsInc(states[n].byName, k, i)
  {
    RunMet(states, acts, n);
    OwnedMine(states[n], i);
  }

  /** In every run, a lookup that matches an incarnation by its status plane or by its serial finds that incarnation
      and no other, with its own task's abort handle if any: stops, kills and aborts by id act on no other's. */
  lemma LookupsFindTheirOwn(states: seq<State>, acts: seq<Action>, n: nat, i: nat, k: nat)
    requires Run(states, acts) && n < |states| && i in states[n].incs && !states[n].incs[i].pc.Drawing?
    ensures HoldsSerial(states[n].byId, k, states[n].incs[i].serial) <==> HoldsInc(states[n].byId, k, i)
    ensures HoldsSerial(states[n].byName, k, states[n].incs[i].serial) <==> HoldsInc(states[n].byName, k, i)
    ensures HoldsInc(states[n].byId, k, i) && states[n].byId[k].abort.Some? ==> states[n].byId[k].abort.value == i
    ensures HoldsInc(states[n].byName, k, i) && states[n].byName[k].abort.Some? ==> states[n].byName[k].abort.value == i
  {
    RunMet(states, acts, n);
    SerialNamesInc(states[n], i, k);
    OwnedMine(states[n], i);
  }
}
