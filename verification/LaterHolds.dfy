/** What a walk relies on while it waits is what the protocols keep: each clause of `World.Later` from the runs of the
    part it is about. */
module LaterHolds {
  import opened Base
  import Gate
  import opened Lane
  import opened World
  import AbortRecord
  import Admission
  import Handshake
  import Ownership
  import Registry
  import Sweep

  // ----- The planes

  lemma PlaneGoesOn(s: Sweep.State, a: Sweep.Action)
    requires (s.plane.stopped ==> s.plane.finalAt.Some?) && Sweep.Next(s, a).Some?
    ensures var q := Sweep.Next(s, a).value.plane; PlaneLater(s.plane, q) && (q.stopped ==> q.finalAt.Some?)
  {
  }

  /** In every run: the plane of an incarnation only goes on, whatever its end and the sweeps do. */
  lemma {:induction false} PlanesGoOn(states: seq<Sweep.State>, acts: seq<Sweep.Action>, m: nat, n: nat)
    requires Sweep.Run(states, acts) && m <= n < |states|
    ensures PlaneLater(states[m].plane, states[n].plane) && (states[n].plane.stopped ==> states[n].plane.finalAt.Some?)
    decreases n
  {
    if n > 0 {
      PlanesGoOn(states, acts, Min(m, n - 1), n - 1);
      assert Sweep.Next(states[n - 1], acts[n - 1]) == Some(states[n]);
      PlaneGoesOn(states[n - 1], acts[n - 1]);
    }
  }

  // ----- The records

  /** Whatever is done to a record, the first abort stands. */
  lemma RecordsGoOn(r: AbortRecord.Record, ops: seq<AbortRecord.Op>)
    ensures r.at.Some? ==> AbortRecord.ApplyAll(r, ops).at == r.at
  {
    AbortRecord.OpsAreLater(r, ops);
  }

  // ----- The lanes

  lemma RaiserAsks(s: Handshake.State, r: nat, i: nat)
    requires r in s.raisers && s.raisers[r].inc in s.incs && i in s.incs
    ensures var s' := Handshake.RaiserStep(s, r); i in s'.incs && LaneLater(s.incs[i].lane, s'.incs[i].lane)
  {
    hide LaneLater, TryRaise;
    RequestsAreLater(s.incs[i].lane, []);
    RaiseIsLater(s.incs[i].lane, Kill);
  }

  lemma ErrandAsks(s: Handshake.State, q: nat, i: nat)
    requires q in s.errands.all && (s.errands.all[q].pc.Found? ==> s.errands.all[q].pc.inc in s.incs) && i in s.incs
    ensures var s' := Handshake.ErrandStep(s, q); i in s'.incs && LaneLater(s.incs[i].lane, s'.incs[i].lane)
  {
    hide LaneLater, TryRaise;
    RequestsAreLater(s.incs[i].lane, []);
    if s.errands.all[q].want.ToStop? {
      RaiseIsLater(s.incs[i].lane, s.errands.all[q].want.reason);
    }
  }

  lemma LaneGoesOn(s: Handshake.State, a: Handshake.Action, i: nat)
    requires Handshake.Next(s, a).Some? && i in s.incs
    ensures var s' := Handshake.Next(s, a).value; i in s'.incs && LaneLater(s.incs[i].lane, s'.incs[i].lane)
  {
    hide LaneLater, Apply, Handshake.RaiserStep, Handshake.ErrandStep, Handshake.RegisterStep, Handshake.AttachStep;
    RequestsAreLater(s.incs[i].lane, []);
    match a
    case Advance(j) => Ownership.RegisterShape(s, j); Ownership.AttachShape(s, j);
    case UseLane(_, op) => OpIsLater(s.incs[i].lane, op);
    case AdvanceErrand(q) => ErrandAsks(s, q, i);
    case AdvanceRaiser(r) => RaiserAsks(s, r, i);
    case _ =>
  }

  /** In every run: the lane of an incarnation forgets nothing it was asked. */
  lemma {:induction false} LanesGoOn(states: seq<Handshake.State>, acts: seq<Handshake.Action>, m: nat, n: nat, i: nat)
    requires Handshake.Run(states, acts) && m <= n < |states| && i in states[m].incs
    ensures i in states[n].incs && LaneLater(states[m].incs[i].lane, states[n].incs[i].lane)
    decreases n - m
  {
    hide Handshake.Next, LaneLater;
    if m < n {
      LanesGoOn(states, acts, m, n - 1, i);
      assert Handshake.Next(states[n - 1], acts[n - 1]) == Some(states[n]);
      LaneGoesOn(states[n - 1], acts[n - 1], i);
      LaneLaterTrans(states[m].incs[i].lane, states[n - 1].incs[i].lane, states[n].incs[i].lane);
    } else {
      RequestsAreLater(states[m].incs[i].lane, []);
    }
  }

  // ----- The registry

  /** An entry as a walk sees it: the abort handle is there or not. */
  function Seen(e: Registry.Entry): Registered { Registered(e.serial, e.isRoot, e.grace, e.abort.Some?) }

  function RegistryOf(m: map<nat, Registry.Entry>): map<nat, Registered> { map k | k in m :: Seen(m[k]) }

  /** From `m` to `m'` nothing registered. */
  predicate NoneNew(m: map<nat, Registry.Entry>, m': map<nat, Registry.Entry>) {
    forall k :: k in m' ==> k in m && EntryLater(Seen(m[k]), Seen(m'[k]))
  }

  /** The step at which a registration lands. */
  predicate Lands(s: Handshake.State, a: Handshake.Action) {
    a.Advance? && a.i in s.incs && s.incs[a.i].pc.ClaimingId? && s.incs[a.i].spec.id !in s.byId
  }

  lemma NoneNewTrans(a: map<nat, Registry.Entry>, b: map<nat, Registry.Entry>, c: map<nat, Registry.Entry>)
    requires NoneNew(a, b) && NoneNew(b, c)
    ensures NoneNew(a, c)
  {
    forall k | k in c ensures k in a && EntryLater(Seen(a[k]), Seen(c[k])) {
      assert EntryLater(Seen(a[k]), Seen(b[k])) && EntryLater(Seen(b[k]), Seen(c[k]));
    }
  }

  lemma NoneNewSelf(m: map<nat, Registry.Entry>)
    ensures NoneNew(m, m)
  {
  }

  lemma EntriesGoOn(s: Handshake.State, a: Handshake.Action)
    requires Handshake.Next(s, a).Some? && !Lands(s, a)
    ensures NoneNew(s.byId, Handshake.Next(s, a).value.byId)
  {
    hide Handshake.ReadTo, Handshake.AttachDelay, Handshake.FreeName, TryRaise, Apply, Handshake.RaiserStep;
    if a.AdvanceRaiser? {
      RaiserRegistersNone(s, a.r);
    }
  }

  lemma RaiserRegistersNone(s: Handshake.State, r: nat)
    requires r in s.raisers && s.raisers[r].inc in s.incs
    ensures NoneNew(s.byId, Handshake.RaiserStep(s, r).byId)
  {
    hide TryRaise;
  }

  /** In every run: over a stretch in which no registration lands, entries only go, or get their abort handle. */
  lemma {:induction false} RegistryGoesOn(states: seq<Handshake.State>, acts: seq<Handshake.Action>, m: nat, n: nat)
    requires Handshake.Run(states, acts) && m <= n < |states|
    requires forall k :: m <= k < n ==> !Lands(states[k], acts[k])
    ensures NoneNew(states[m].byId, states[n].byId)
    decreases n - m
  {
    hide NoneNew, Handshake.Next;
    if m < n {
      RegistryGoesOn(states, acts, m, n - 1);
      assert Handshake.Next(states[n - 1], acts[n - 1]) == Some(states[n]);
      EntriesGoOn(states[n - 1], acts[n - 1]);
      NoneNewTrans(states[m].byId, states[n - 1].byId, states[n].byId);
    } else {
      NoneNewSelf(states[m].byId);
    }
  }

  /** In every run: no serial is registered under two ids. */
  lemma {:induction false} SerialsUnique(states: seq<Handshake.State>, acts: seq<Handshake.Action>, n: nat)
    requires Handshake.Run(states, acts) && n < |states|
    ensures Ownership.Owned(states[n]) && RegistryOk(RegistryOf(states[n].byId))
  {
    hide Handshake.Next, RegistryOf;
    var s := states[n];
    if n > 0 {
      SerialsUnique(states, acts, n - 1);
      assert Handshake.Next(states[n - 1], acts[n - 1]) == Some(s);
      Ownership.StepOwned(states[n - 1], acts[n - 1]);
    }
    OwnedUnique(s);
  }

  lemma OwnedUnique(s: Handshake.State)
    requires Ownership.Owned(s)
    ensures RegistryOk(RegistryOf(s.byId))
  {
    forall j, k | j in s.byId && k in s.byId && s.byId[j].serial == s.byId[k].serial ensures j == k {
      assert Ownership.IdPlaced(s.incs, j, s.byId[j]) && Ownership.IdPlaced(s.incs, k, s.byId[k]);
      assert Ownership.IncOk(s, s.byId[j].inc, s.incs[s.byId[j].inc]);
      Ownership.SerialNamesInc(s, s.byId[j].inc, k);
    }
  }

  // ----- A later moment

  /** A stretch of a run. */
  datatype Stretch<S, A> = Stretch(states: seq<S>, acts: seq<A>, m: nat, n: nat) {
    predicate Within() { m <= n < |states| == |acts| + 1 }

    function Begin(): S
      requires Within()
    {
      states[m]
    }

    function End(): S
      requires Within()
    {
      states[n]
    }
  }

  /** What happened between two moments: to the gate, to the registry and the lanes, to the end of each incarnation,
      and to its record. `who` has the incarnation of each serial. */
  datatype History = History(gate: Stretch<Admission.State, Admission.Action>,
                             registry: Stretch<Handshake.State, Handshake.Action>,
                             ends: map<nat, Stretch<Sweep.State, Sweep.Action>>,
                             uses: map<nat, seq<AbortRecord.Op>>, who: map<nat, nat>)

  ghost predicate Runs(h: History) {
    && h.gate.Within() && Admission.Run(h.gate.states, h.gate.acts)
    && h.registry.Within() && Handshake.Run(h.registry.states, h.registry.acts)
    && forall i :: i in h.ends ==> h.ends[i].Within() && Sweep.Run(h.ends[i].states, h.ends[i].acts)
  }

  predicate Landing(h: History, k: nat)
    requires h.gate.Within()
  {
    h.gate.m <= k < h.gate.n && h.gate.acts[k].Insert? && h.gate.acts[k].lands
  }

  /** The walk is live throughout, and a registration lands in the registry only inside the gate. */
  ghost predicate Walked(h: History, w: nat)
    requires Runs(h)
  {
    && (forall k :: h.gate.m <= k <= h.gate.n ==>
          w in h.gate.states[k].walks && Admission.Live(h.gate.states[k].walks[w]))
    && (forall k :: h.registry.m <= k < h.registry.n && Lands(h.registry.states[k], h.registry.acts[k]) ==>
                      exists j: nat :: Landing(h, j))
  }

  /** The world of the walk is the protocols' states: those the stretches begin in, or those they end in. */
  ghost predicate Mirrors(e: Env, gate: Admission.State, registry: Handshake.State, h: History, w: nat) {
    && e.mine == Admission.FoldOf(gate.folds, w) && Admission.OthersFold(gate, w, e.others)
    && e.registry == RegistryOf(registry.byId)
    && (forall i :: i in e.lanes ==>
                      i in h.who && h.who[i] in registry.incs && registry.incs[h.who[i]].lane == e.lanes[i])
  }

  predicate PlaneMirrors(e: Env, e': Env, h: History, i: nat)
    requires i in e.planes
  {
    && i in e'.planes && i in h.ends && h.ends[i].Within()
    && e.planes[i] == h.ends[i].Begin().plane && e'.planes[i] == h.ends[i].End().plane
  }

  /** While a walk is live no registration lands. */
  lemma NothingLands(h: History, w: nat)
    requires Runs(h) && Walked(h, w)
    ensures forall k :: h.registry.m <= k < h.registry.n ==> !Lands(h.registry.states[k], h.registry.acts[k])
  {
    Admission.WhileAWalkLives(h.gate.states, h.gate.acts, h.gate.m, h.gate.n, w);
    assert forall j: nat :: !Landing(h, j);
  }

  /** The two parts of the deadline held, at both ends. */
  lemma DeadlinesMirror(h: History, w: nat, o: Option<nat>, o': Option<nat>)
    requires Runs(h) && Walked(h, w)
    requires Admission.OthersFold(h.gate.Begin(), w, o) && Admission.OthersFold(h.gate.End(), w, o')
    ensures Gate.Falls(o, o')
    ensures Gate.Falls(Admission.FoldOf(h.gate.Begin().folds, w), Admission.FoldOf(h.gate.End().folds, w))
    ensures h.gate.Begin().gate.deadline == Gate.Earlier(Admission.FoldOf(h.gate.Begin().folds, w), o)
    ensures h.gate.End().gate.deadline == Gate.Earlier(Admission.FoldOf(h.gate.End().folds, w), o')
  {
    hide Admission.Inv, Admission.Next;
    Admission.WhileAWalkLives(h.gate.states, h.gate.acts, h.gate.m, h.gate.n, w);
    Admission.RunKeeps(h.gate.states, h.gate.acts, h.gate.m);
    Admission.RunKeeps(h.gate.states, h.gate.acts, h.gate.n);
    Admission.HeldByParts(h.gate.Begin(), w, o);
    Admission.HeldByParts(h.gate.End(), w, o');
    Admission.OthersFall(h.gate.Begin().folds, h.gate.End().folds, w, o, o');
  }

  /** Two moments of a live walk: over any stretches of any runs of the protocols that keep it live, the second is a
      later moment of the first, and no serial is registered twice in either. The clock and the finished tasks going
      on is the runtime's. */
  lemma LaterFromProtocols(e: Env, e': Env, h: History, w: nat)
    requires e.now <= e'.now && e.finished <= e'.finished
    requires Runs(h) && Walked(h, w)
    requires Mirrors(e, h.gate.Begin(), h.registry.Begin(), h, w)
    requires Mirrors(e', h.gate.End(), h.registry.End(), h, w)
    requires e.lanes.Keys <= e'.lanes.Keys && forall i :: i in e.planes ==> PlaneMirrors(e, e', h, i)
    requires forall i :: i in e.records ==>
        i in e'.records && i in h.uses && e'.records[i] == AbortRecord.ApplyAll(e.records[i], h.uses[i])
    ensures Later(e, e') && RegistryOk(e.registry) && RegistryOk(e'.registry)
    ensures Held(e) == h.gate.Begin().gate.deadline && Held(e') == h.gate.End().gate.deadline
  {
    hide LaneLater, PlaneLater, Lands, Handshake.Next, Admission.Next, Ownership.Owned;
    Admission.WhileAWalkLives(h.gate.states, h.gate.acts, h.gate.m, h.gate.n, w);
    DeadlinesMirror(h, w, e.others, e'.others);
    NothingLands(h, w);
    RegistryGoesOn(h.registry.states, h.registry.acts, h.registry.m, h.registry.n);
    SerialsUnique(h.registry.states, h.registry.acts, h.registry.m);
    SerialsUnique(h.registry.states, h.registry.acts, h.registry.n);
    forall i | i in e.planes ensures PlaneLater(e.planes[i], e'.planes[i]) {
      assert PlaneMirrors(e, e', h, i);
      PlanesGoOn(h.ends[i].states, h.ends[i].acts, h.ends[i].m, h.ends[i].n);
    }
    forall i | i in e.lanes ensures i in e'.lanes && LaneLater(e.lanes[i], e'.lanes[i]) {
      LanesGoOn(h.registry.states, h.registry.acts, h.registry.m, h.registry.n, h.who[i]);
    }
    forall i | i in e.records ensures e.records[i].at.Some? ==> e'.records[i].at == e.records[i].at {
      RecordsGoOn(e.records[i], h.uses[i]);
    }
  }
}
