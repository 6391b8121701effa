/** The stops and the aborts by id: each acts on the incarnation it was started on, or on none. */
module Requests {
  import opened Base
  import opened Lane
  import opened Registry
  import opened Handshake
  import opened Ownership
  import opened KillArmed

  /** At step `k` errand `q` looked its target up and did not find it under the id. */
  predicate MissedAt(states: seq<State>, acts: seq<Action>, k: nat, q: nat) {
    && k < |acts| && k < |states| && acts[k] == AdvanceErrand(q) && q in states[k].errands.all
    && states[k].errands.all[q].pc.LookingUp?
    && !HoldsInc(states[k].byId, states[k].errands.all[q].id, states[k].errands.all[q].inc)
  }

  /** At step `k` it looked its target up and found it there, `task` being the abort handle stored by then. */
  predicate FoundAt(states: seq<State>, acts: seq<Action>, k: nat, q: nat, task: Option<nat>) {
    && k < |acts| && k < |states| && acts[k] == AdvanceErrand(q) && q in states[k].errands.all
    && states[k].errands.all[q].pc.LookingUp?
    && var x := states[k].errands.all[q];
       HoldsInc(states[k].byId, x.id, x.inc) && states[k].byId[x.id].abort == task
  }

  /** At step `m` it aborted its target's task, through its target's record, there and then. */
  predicate AbortedAt(states: seq<State>, acts: seq<Action>, m: nat, n: nat, q: nat, i: nat)
    requires n < |states|
  {
    m < |acts| && m < n && acts[m] == AdvanceErrand(q) && Arm(i, i, states[m].now) in states[n].errands.aborted
  }

  /** What a stop or an abort by id that is over comes to: its target was not there; or it was, and its lane has a
      request standing or refuses it, or its task, if it had one by then, was aborted through its own record. */
  ghost predicate Carried(states: seq<State>, acts: seq<Action>, n: nat, q: nat, x: Errand)
    requires n < |states| && x.inc in states[n].incs
  {
    || (exists k: nat :: k < n && MissedAt(states, acts, k, q))
    || (x.want.ToStop? && Heard(states[n].incs[x.inc].lane, x.want.reason))
    || (x.want.ToAbort? && exists k: nat :: k < n && FoundAt(states, acts, k, q, None))
    || (x.want.ToAbort? && exists k: nat, m: nat ::
          k < m < n && FoundAt(states, acts, k, q, Some(x.inc)) && AbortedAt(states, acts, m, n, q, x.inc))
  }

  ghost predicate ErrandTrue(states: seq<State>, acts: seq<Action>, n: nat, q: nat)
    requires n < |states| && q in states[n].errands.all
  {
    var x := states[n].errands.all[q];
    && x.inc in states[n].incs
    && (x.pc.Found? ==>
          x.pc.inc == x.inc && exists k: nat :: k < n && FoundAt(states, acts, k, q, x.pc.task))
    && (x.pc.Found? && x.pc.task.Some? ==> x.pc.task.value == x.inc)
    && (x.pc.Gone? ==> Carried(states, acts, n, q, x))
  }

  /** A step leaves the other errands, and takes back neither what a lane was asked nor an abort. */
  lemma StepLeaves(s: State, a: Action, q: nat)
    requires Next(s, a).Some? && q in s.errands.all && s.errands.all[q].inc in s.incs && a != AdvanceErrand(q)
    ensures var s', x := Next(s, a).value, s.errands.all[q];
            && q in s'.errands.all && s'.errands.all[q] == x && x.inc in s'.incs
            && s.errands.aborted <= s'.errands.aborted && LaneLater(s.incs[x.inc].lane, s'.incs[x.inc].lane)
  {
    hide LaneLater, TryRaise, Apply, RegisterStep, AttachStep, RaiserStep, GuardStep;
    var i := s.errands.all[q].inc;
    RequestsAreLater(s.incs[i].lane, []);
    match a
    case Advance(j) => RegisterShape(s, j); AttachShape(s, j); SpawnLeaves(s, j);
    case DropGuard(j) => GuardLeaves(s, j);
    case UseLane(_, op) => OpIsLater(s.incs[i].lane, op);
    case AdvanceRaiser(r) => RaiserLeaves(s, r, i);
    case AdvanceErrand(p) =>
      if s.errands.all[p].want.ToStop? {
        RaiseIsLater(s.incs[i].lane, s.errands.all[p].want.reason);
      }
    case _ =>
  }

  lemma SpawnLeaves(s: State, i: nat)
    requires i in s.incs
    ensures RegisterStep(s, i).errands == s.errands && AttachStep(s, i).errands == s.errands
  {
    hide ReadTo, AttachDelay, StoreAbort, FreeName, RemoveIf, DueOf;
  }

  lemma GuardLeaves(s: State, i: nat)
    requires i in s.incs
    ensures GuardStep(s, i).errands == s.errands && GuardStep(s, i).incs == s.incs[i := GuardStep(s, i).incs[i]]
    ensures GuardStep(s, i).incs[i].lane == s.incs[i].lane
  {
  }

  lemma RaiserLeaves(s: State, r: nat, i: nat)
    requires r in s.raisers && s.raisers[r].inc in s.incs && i in s.incs
    ensures var s' := RaiserStep(s, r);
            s'.errands == s.errands && i in s'.incs && LaneLater(s.incs[i].lane, s'.incs[i].lane)
  {
    hide LaneLater, TryRaise, Declare, AskedDue;
    RequestsAreLater(s.incs[i].lane, []);
    RaiseIsLater(s.incs[i].lane, Kill);
  }

  lemma CarriedStays(states: seq<State>, acts: seq<Action>, n: nat, q: nat, x: Errand)
    requires n + 1 < |states| && x.inc in states[n].incs && x.inc in states[n + 1].incs
    requires states[n].errands.aborted <= states[n + 1].errands.aborted
    requires LaneLater(states[n].incs[x.inc].lane, states[n + 1].incs[x.inc].lane)
    requires Carried(states, acts, n, q, x)
    ensures Carried(states, acts, n + 1, q, x)
  {
    hide MissedAt, FoundAt, Heard, LaneLater;
    if k: nat :| k < n && MissedAt(states, acts, k, q) {
      assert k < n + 1;
    } else if x.want.ToStop? {
      HeardStays(states[n].incs[x.inc].lane, states[n + 1].incs[x.inc].lane, x.want.reason);
    } else if k: nat :| k < n && FoundAt(states, acts, k, q, None) {
      assert k < n + 1;
    } else {
      var k: nat, m: nat :| k < m < n && FoundAt(states, acts, k, q, Some(x.inc))
                            && AbortedAt(states, acts, m, n, q, x.inc);
      assert k < m < n + 1 && AbortedAt(states, acts, m, n + 1, q, x.inc);
    }
  }

  /** The errand's own step. */
  lemma OwnStep(states: seq<State>, acts: seq<Action>, n: nat, q: nat)
    requires n < |acts| && n + 1 < |states| && acts[n] == AdvanceErrand(q) && q in states[n].errands.all
    requires Next(states[n], acts[n]) == Some(states[n + 1]) && Mine(states[n], states[n].errands.all[q].inc)
    requires ErrandTrue(states, acts, n, q)
    ensures q in states[n + 1].errands.all && ErrandTrue(states, acts, n + 1, q)
  {
    var s, s', x := states[n], states[n + 1], states[n].errands.all[q];
    if x.pc.LookingUp? {
      if HoldsInc(s.byId, x.id, x.inc) {
        OwnHandle(s, x);
        assert FoundAt(states, acts, n, q, s.byId[x.id].abort);
      } else {
        assert MissedAt(states, acts, n, q);
      }
      assert n < n + 1;
    } else {
      hide Mine;
      var k: nat :| k < n && FoundAt(states, acts, k, q, x.pc.task);
      assert k < n + 1;
      if x.want.ToStop? {
        TakenOrRefused(s.incs[x.inc].lane, x.want.reason);
      } else if x.pc.task.Some? {
        assert k < n < n + 1 && AbortedAt(states, acts, n, n + 1, q, x.inc);
      }
    }
  }

  lemma OwnHandle(s: State, x: Errand)
    requires Mine(s, x.inc) && HoldsInc(s.byId, x.id, x.inc)
    ensures s.byId[x.id].abort.Some? ==> s.byId[x.id].abort.value == x.inc
  {
  }

  lemma TakenOrRefused(l: LaneState, reason: StopReason)
    ensures Heard(TryRaise(l, reason).0, reason)
  {
  }

  /** In every run: a stop or an abort by id that is over missed its target, or did to it what it was for. */
  lemma {:induction false} ErrandsCarried(states: seq<State>, acts: seq<Action>, n: nat, q: nat)
    requires Run(states, acts) && n < |states| && q in states[n].errands.all
    ensures ErrandTrue(states, acts, n, q)
  {
    hide Owned, Met, Mine, MissedAt, FoundAt;
    if n > 0 {
      var s, a := states[n - 1], acts[n - 1];
      assert Next(s, a) == Some(states[n]);
      RunMet(states, acts, n - 1);
      if q !in s.errands.all {
        OtherErrands(s, a);
        assert NewOne(states[n], states[n].errands.all[q]);
      } else {
        ErrandsCarried(states, acts, n - 1, q);
        var x := s.errands.all[q];
        if a == AdvanceErrand(q) {
          OwnedMine(s, x.inc);
          OwnStep(states, acts, n - 1, q);
        } else {
          StepLeaves(s, a, q);
          if x.pc.Gone? {
            CarriedStays(states, acts, n - 1, q, x);
          } else if x.pc.Found? {
            var k: nat :| k < n - 1 && FoundAt(states, acts, k, q, x.pc.task);
            assert k < n;
          }
        }
      }
    }
  }
}
