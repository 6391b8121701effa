/** From an accepted `Kill` to the abort of the task: the handshake arms, and the reaper enforces. */
module Enforcement {
  import opened Base
  import Handshake
  import Instants
  import KillArmed
  import opened Reaper
  import opened ReaperLoop
  import opened ReaperTruth

  /** No firing of entry `id` came to a running task before `at`. */
  predicate NoneEarly(log: seq<Event>, id: nat, at: nat) {
    forall k :: 0 <= k < |log| && log[k].Acted? && log[k].running && log[k].entry.id == id ==> at <= log[k].at
  }

  /** Entry `id` is of `arm`: it ends its task, and fires at its instant or later. */
  predicate EntryOf(tasks: map<nat, nat>, asked: map<nat, Asked>, id: nat, arm: Handshake.Arm) {
    id in tasks && tasks[id] == arm.task && id in asked && asked[id] == Asked(None, arm.at)
  }

  lemma FiresByItsArm(log: seq<Event>, tasks: map<nat, nat>, asked: map<nat, Asked>, id: nat, arm: Handshake.Arm)
    requires EntryOf(tasks, asked, id, arm) && forall k :: 0 <= k < |log| ==> FiredInTime(log, asked, k)
    ensures NoneEarly(log, id, arm.at)
  {
    forall k | 0 <= k < |log| && log[k].Acted? && log[k].running && log[k].entry.id == id ensures arm.at <= log[k].at {
      assert FiredInTime(log, asked, k);
    }
  }

  /** Every armed abort is handed to the reaper of its runtime, whose feed may be closed once or twice, and the reaper
      then runs on whatever comes, or is cut: an abort of every task is recorded, and none is owed, unless its actor
      had ended or is one of those that may end meanwhile; and none fires on a running task before the instant it was
      armed for. `ids` are their entries. */
  method EnforceArmed(r: ReaperTask, arms: seq<Handshake.Arm>, closed: seq<(bool, bool)>, script: seq<Turn>,
                      may: set<nat>) returns (ghost ids: seq<nat>)
    requires r.Valid() && |closed| == |arms|
    modifies r
    ensures r.Valid() && r.EndedAmong(may) && |ids| == |arms|
    ensures forall k :: 0 <= k < |arms| ==>
              && EntryOf(r.tasks, r.asked, ids[k], arms[k]) && Enforced(r.records, old(r.over) + may, arms[k].task)
              && AbortedIds(r.log)[ids[k]] == 1 && NoneEarly(r.log, ids[k], arms[k].at)
  {
    hide AllOk, Truthful, EndsTrue, FiredInTime, AfterItsKill, LogTrue, AbortedIds, NoneEarly;
    ids := [];
    for n := 0 to |arms|
      invariant r.Valid() && r.over == old(r.over) && r.finished == old(r.finished)
      invariant |ids| == n && forall k :: 0 <= k < n ==> EntryOf(r.tasks, r.asked, ids[k], arms[k])
    {
      ghost var id := r.Submit(arms[n].task, None, arms[n].at, closed[n].0, closed[n].1);
      ids := ids + [id];
    }
    ghost var tasks, asked := r.tasks, r.asked;
    ghost var more := r.Run(script, may);
    forall k | 0 <= k < |arms|
      ensures EntryOf(r.tasks, r.asked, ids[k], arms[k]) && NoneEarly(r.log, ids[k], arms[k].at)
    {
      assert EntryOf(tasks, asked, ids[k], arms[k]);
      FiresByItsArm(r.log, r.tasks, r.asked, ids[k], arms[k]);
    }
  }

  /** End to end: a `Kill` accepted on an incarnation that stays registered, with its raiser and its attach done, ends
      with an abort in the incarnation's record, however the reaper fares, unless the actor has ended: one that had
      not, and is none of those that end meanwhile, has its abort. `arm` is the abort armed for it at step `k`, as its
      raiser wants it, and its entry fires on a running task no earlier than that. */
  method EnforceKill(r: ReaperTask, arms: seq<Handshake.Arm>, closed: seq<(bool, bool)>, script: seq<Turn>,
                     may: set<nat>,
                     ghost states: seq<Handshake.State>, ghost acts: seq<Handshake.Action>, ghost n: nat, i: nat,
                     ghost x: nat) returns (ghost k: nat, ghost arm: Handshake.Arm, ghost id: nat)
    requires r.Valid() && |closed| == |arms|
    requires Handshake.Run(states, acts) && n < |states| && forall a :: a in states[n].armed ==> a in arms
    requires var s := states[n];
             && i in s.incs && s.incs[i].guard.Held? && s.incs[i].pc.Attached?
             && x in s.raisers && s.raisers[x].inc == i && KillArmed.Targets(s.raisers[x].key, s.incs[i].spec)
             && s.raisers[x].pc == Handshake.Finished(true)
    modifies r
    ensures r.Valid() && r.EndedAmong(may) && Enforced(r.records, old(r.over) + may, i)
    ensures i !in old(r.over) && i !in may ==> r.records[i].at.Some?
    ensures k < n && arm.task == arm.record == i && arm in states[n].armed
    ensures Instants.InTime(states, acts, k, x, states[n].raisers[x], arm)
    ensures EntryOf(r.tasks, r.asked, id, arm) && NoneEarly(r.log, id, arm.at)
  {
    hide AllOk, Truthful, EndsTrue, Handshake.Next, Instants.InTime, NoneEarly;
    k, arm := Instants.AcceptedKillIsArmed(states, acts, n, i, x);
    ghost var ids := EnforceArmed(r, arms, closed, script, may);
    ghost var m :| 0 <= m < |arms| && arms[m] == arm;
    id := ids[m];
  }
}
