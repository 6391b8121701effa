/** Registrations against overlapping shutdowns. A registration holds the shared side of the gate from its phase
    check through its inserts; every phase change takes the exclusive side. Any number of registrations,
    shutdowns and teardowns interleave. */
module Admission {
  import opened Base
  import opened Gate

  datatype RegisterPc = Inserting | Inserted

  /** A shutdown: entered, walking the roots it has taken on, sweeping once a snapshot held nothing new. */
  datatype WalkPc = Entering | Walking(taken: set<nat>) | Sweeping(taken: set<nat>) | Over

  /** `roots` are the serials of the roots registered now, `completedWalks` what the walks completed since the
      system was last `Active` had taken on, `folds` the earliest deadline each walk folded since one was first held. */
  datatype State = State(gate: Gate, registering: map<nat, RegisterPc>, roots: set<nat>, nextSerial: nat,
                         walks: map<nat, WalkPc>, completedWalks: seq<set<nat>>, folds: map<nat, nat>)

  datatype Action =
    | BeginRegister(t: nat)            // take the shared side, check the phase
    | Insert(t: nat, lands: bool, isRoot: bool) // draw a serial and insert; a taken name or id makes it fail
    | EndRegister(t: nat)              // release the shared side
    | Unregister(serial: nat)          // a root's guard drops
    | EnterShutdown(w: nat)
    | Snapshot(w: nat)
    | LatePass(w: nat)                 // snapshot again, take on what is new; nothing new ends the loop
    | FoldDeadline(w: nat, floor: nat) // its sweep folds its deadline into the system's
    | Complete(w: nat)
    | CutShort(w: nat)
    | TryReactivate

  predicate Live(pc: WalkPc) { pc != Over }

  function LiveWalks(s: State): set<nat> { set w | w in s.walks && Live(s.walks[w]) }

  /** No registration holds the shared side. */
  predicate Exclusive(s: State) { s.registering == map[] }

  function SetWalk(s: State, w: nat, pc: WalkPc): State { s.(walks := s.walks[w := pc]) }

  /** What `w` folded, if anything. */
  function FoldOf(folds: map<nat, nat>, w: nat): Option<nat> { if w in folds then Some(folds[w]) else None }

  /** The folds that still count once the gate is `g`. */
  function Standing(g: Gate, folds: map<nat, nat>): map<nat, nat> { if g.deadline.None? then map[] else folds }

  function Next(s: State, a: Action): Option<State> {
    match a
    case BeginRegister(t) =>
      if t in s.registering then None
      else if s.gate.phase != Active then Some(s)   // refused
      else Some(s.(registering := s.registering[t := Inserting]))
    case Insert(t, lands, isRoot) =>
      if t in s.registering && s.registering[t] == Inserting then
        Some(s.(registering := s.registering[t := Inserted], nextSerial := s.nextSerial + 1,
             roots := if lands && isRoot then s.roots + {s.nextSerial} else s.roots))
      else None
    case EndRegister(t) =>
      if t in s.registering && s.registering[t] == Inserted then Some(s.(registering := s.registering - {t})) else None
    case Unregister(serial) => Some(s.(roots := s.roots - {serial}))
    case EnterShutdown(w) =>
      if w in s.walks || !Exclusive(s) then None
      else Some(SetWalk(s, w, Entering).(gate := Enter(s.gate)))
    case Snapshot(w) =>
      if w in s.walks && s.walks[w].Entering? then Some(SetWalk(s, w, Walking(s.roots))) else None
    case LatePass(w) =>
      if w in s.walks && s.walks[w].Walking? then
        var late := s.roots - s.walks[w].taken;
        Some(SetWalk(s, w, if late == {} then Sweeping(s.walks[w].taken) else Walking(s.walks[w].taken + late)))
      else None
    case FoldDeadline(w, floor) =>
      if w in s.walks && s.walks[w].Sweeping? then
        Some(s.(gate := Fold(s.gate, floor), folds := s.folds[w := Lower(FoldOf(s.folds, w), floor)]))
      else None
    case Complete(w) =>
      if w in s.walks && s.walks[w].Sweeping? && Exclusive(s) && s.gate.inFlight > 0 then
        var gate := Leave(s.gate, true);
        Some(SetWalk(s, w, Over).(gate := gate, completedWalks := s.completedWalks + [s.walks[w].taken],
             folds := Standing(gate, s.folds)))
      else None
    case CutShort(w) =>
      if w in s.walks && Live(s.walks[w]) && Exclusive(s) && s.gate.inFlight > 0 then
        var gate := Leave(s.gate, false);
        Some(SetWalk(s, w, Over).(gate := gate, folds := Standing(gate, s.folds)))
      else None
    case TryReactivate =>
      if !Exclusive(s) then None
      else Some(s.(gate := Reactivate(s.gate),
                   completedWalks := if CanReactivate(s.gate) then [] else s.completedWalks))
  }

  predicate Init(s: State) {
    && s.gate == OPEN && s.registering == map[] && s.roots == {} && s.walks == map[] && s.completedWalks == []
    && s.folds == map[]
  }

  ghost predicate Run(states: seq<State>, acts: seq<Action>) {
    && |states| == |acts| + 1
    && Init(states[0])
    && forall i :: 0 <= i < |acts| ==> Next(states[i], acts[i]) == Some(states[i + 1])
  }

  /** The walk has taken on every root registered now. */
  predicate CoversRoots(s: State, pc: WalkPc) { pc.Walking? || pc.Sweeping? ==> s.roots <= pc.taken }

  /** `d` is the earliest of `folds`. */
  ghost predicate IsEarliest(d: Option<nat>, folds: map<nat, nat>) {
    && (d.None? <==> folds == map[])
    && (d.Some? ==> (exists w :: w in folds && folds[w] == d.value) && forall w :: w in folds ==> d.value <= folds[w])
  }

  ghost predicate Inv(s: State) {
    && IsEarliest(s.gate.deadline, s.folds)
    && s.gate.inFlight == |LiveWalks(s)|
    && (s.gate.phase == Active ==> s.gate == OPEN)
    && (s.gate.inFlight > 0 ==> s.gate.phase == ShuttingDown)
    && (s.gate.phase == Defunct <==> s.gate.inFlight == 0 && s.gate.completed)
    && (s.gate.deadline.Some? ==> s.gate.phase == ShuttingDown)
    && (!Exclusive(s) ==> s.gate.phase == Active)
    && (forall w :: w in s.walks ==> CoversRoots(s, s.walks[w]))
    && (s.gate.completed <==> s.completedWalks != [])
    && (forall k :: 0 <= k < |s.completedWalks| ==> s.roots <= s.completedWalks[k])
  }

  lemma LiveMove(s: State, w: nat, pc: WalkPc)
    ensures LiveWalks(SetWalk(s, w, pc)) == if Live(pc) then LiveWalks(s) + {w} else LiveWalks(s) - {w}
  {
  }

  /** A walk's move changes the count in flight with it. */
  lemma WalkMoves(s: State, w: nat, pc: WalkPc)
    requires Inv(s)
    ensures |LiveWalks(SetWalk(s, w, pc))|
            == |LiveWalks(s)| +
               (if Live(pc) && w !in LiveWalks(s) then 1 else if !Live(pc) && w in LiveWalks(s) then -1 else 0)
  {
    LiveMove(s, w, pc);
    assert w in LiveWalks(s) ==> LiveWalks(s) + {w} == LiveWalks(s) && |LiveWalks(s) - {w}| == |LiveWalks(s)| - 1;
    assert w !in LiveWalks(s) ==> LiveWalks(s) - {w} == LiveWalks(s);
  }

  /** One more fold. */
  lemma OneMoreFold(d: Option<nat>, folds: map<nat, nat>, w: nat, floor: nat)
    requires IsEarliest(d, folds)
    ensures IsEarliest(Some(Lower(d, floor)), folds[w := Lower(FoldOf(folds, w), floor)])
  {
    var folds' := folds[w := Lower(FoldOf(folds, w), floor)];
    assert w in folds';
    if d.Some? && d.value < floor {
      var v :| v in folds && folds[v] == d.value;
      assert v in folds' && folds'[v] == d.value;
    } else {
      assert folds'[w] == floor;
    }
  }

  lemma FoldsKept(s: State, a: Action)
    requires IsEarliest(s.gate.deadline, s.folds) && Next(s, a).Some?
    ensures IsEarliest(Next(s, a).value.gate.deadline, Next(s, a).value.folds)
  {
    if a.FoldDeadline? {
      OneMoreFold(s.gate.deadline, s.folds, a.w, a.floor);
    }
  }

  lemma StepKeeps(s: State, a: Action)
    requires Inv(s) && Next(s, a).Some?
    ensures Inv(Next(s, a).value)
  {
    hide IsEarliest;
    FoldsKept(s, a);
    var s' := Next(s, a).value;
    match a
    case Insert(t, _, _) =>
      assert LiveWalks(s) == {} && LiveWalks(s') == {};
      forall w | w in s'.walks ensures CoversRoots(s', s'.walks[w]) {
        assert !Live(s.walks[w]) by { assert w !in LiveWalks(s); }
      }
    case EnterShutdown(w) => WalkMoves(s, w, Entering); assert LiveWalks(s') == LiveWalks(SetWalk(s, w, Entering));
    case Snapshot(w) => WalkMoves(s, w, s'.walks[w]);
    case LatePass(w) => WalkMoves(s, w, s'.walks[w]);
    case FoldDeadline(w, _) => assert w in LiveWalks(s) && LiveWalks(s') == LiveWalks(s);
    case Complete(w) =>
      WalkMoves(s, w, Over);
      assert w in LiveWalks(s);
      assert LiveWalks(s') == LiveWalks(SetWalk(s, w, Over));
      assert CoversRoots(s, s.walks[w]);
    case CutShort(w) =>
      WalkMoves(s, w, Over);
      assert w in LiveWalks(s);
      assert LiveWalks(s') == LiveWalks(SetWalk(s, w, Over));
    case _ => assert LiveWalks(s') == LiveWalks(s);
  }

  lemma {:induction false} RunKeeps(states: seq<State>, acts: seq<Action>, n: nat)
    requires Run(states, acts) && n < |states|
    ensures Inv(states[n])
  {
    if n == 0 {
      assert LiveWalks(states[0]) == {};
    } else {
      RunKeeps(states, acts, n - 1);
      assert Next(states[n - 1], acts[n - 1]) == Some(states[n]);
      StepKeeps(states[n - 1], acts[n - 1]);
    }
  }

  /** In every run: whenever the system is `Defunct`, a walk has completed since it was last `Active`, and every
      root still registered was taken on by every such walk. */
  lemma DefunctLeavesNoRootBehind(states: seq<State>, acts: seq<Action>, n: nat)
    requires Run(states, acts) && n < |states| && states[n].gate.phase == Defunct
    ensures states[n].completedWalks != []
    ensures forall k :: 0 <= k < |states[n].completedWalks| ==> states[n].roots <= states[n].completedWalks[k]
  {
    RunKeeps(states, acts, n);
  }

  /** In every run: a registration lands only while no shutdown is in flight, so it is in the snapshot of every
      shutdown that enters while it stands. A walk's first snapshot is therefore its last: the pass that looks
      for late roots finds none and ends its loop. */
  lemma LatePassFindsNone(states: seq<State>, acts: seq<Action>, n: nat, w: nat)
    requires Run(states, acts) && n < |acts| && acts[n] == LatePass(w)
    ensures w in states[n].walks && states[n].walks[w].Walking?
    ensures states[n].roots <= states[n].walks[w].taken
    ensures states[n + 1].walks[w] == Sweeping(states[n].walks[w].taken)
  {
    RunKeeps(states, acts, n);
    assert Next(states[n], acts[n]) == Some(states[n + 1]);
    assert CoversRoots(states[n], states[n].walks[w]);
    assert states[n].roots - states[n].walks[w].taken == {};
  }

  /** A registration, of a root or not, lands only while no shutdown is in flight. */
  lemma RegistrationsLandBetweenShutdowns(states: seq<State>, acts: seq<Action>, n: nat)
    requires Run(states, acts) && n < |acts| && acts[n].Insert? && acts[n].lands
    ensures states[n].gate == OPEN && LiveWalks(states[n]) == {} && states[n].completedWalks == []
  {
    RunKeeps(states, acts, n);
    assert Next(states[n], acts[n]) == Some(states[n + 1]);
  }

  /** In every run: a root that has landed and has not been unregistered since stands registered, and has been taken on
      by every walk past its snapshot and by every walk completed since the system was last `Active`. */
  lemma {:induction false} RegisteredRootIsTakenOn(states: seq<State>, acts: seq<Action>, m: nat, n: nat)
    requires Run(states, acts) && m < n < |states| && acts[m].Insert? && acts[m].lands && acts[m].isRoot
    requires forall k :: m < k < n ==> acts[k] != Unregister(states[m].nextSerial)
    ensures states[m].nextSerial in states[n].roots
    ensures forall w :: w in states[n].walks && (states[n].walks[w].Walking? || states[n].walks[w].Sweeping?) ==>
        states[m].nextSerial in states[n].walks[w].taken
    ensures forall k :: 0 <= k < |states[n].completedWalks| ==> states[m].nextSerial in states[n].completedWalks[k]
  {
    assert Next(states[n - 1], acts[n - 1]) == Some(states[n]);
    if m + 1 < n {
      RegisteredRootIsTakenOn(states, acts, m, n - 1);
      assert acts[n - 1] != Unregister(states[m].nextSerial);
    }
    RunKeeps(states, acts, n);
    assert forall w :: w in states[n].walks ==> CoversRoots(states[n], states[n].walks[w]);
  }

  lemma LiveCounts(s: State, w: nat)
    requires Inv(s) && w in s.walks && Live(s.walks[w])
    ensures s.gate.inFlight > 0 && s.gate.phase == ShuttingDown && Exclusive(s)
  {
    assert w in LiveWalks(s);
  }

  /** `o` is what the calls other than `w` folded, at the earliest. */
  ghost predicate OthersFold(s: State, w: nat, o: Option<nat>) { IsEarliest(o, s.folds - {w}) }

  /** The deadline held is the earlier of what one walk folded and what the others did. */
  lemma HeldByParts(s: State, w: nat, o: Option<nat>)
    requires Inv(s) && OthersFold(s, w, o)
    ensures s.gate.deadline == Earlier(FoldOf(s.folds, w), o)
  {
    var rest := s.folds - {w};
    if s.gate.deadline.Some? {
      var v :| v in s.folds && s.folds[v] == s.gate.deadline.value;
      assert v != w ==> v in rest;
      if o.Some? {
        var u :| u in rest && rest[u] == o.value;
        assert u in s.folds;
      }
    } else {
      assert rest == map[];
    }
  }

  /** What the others folded only falls where each of them does. */
  lemma OthersFall(a: map<nat, nat>, b: map<nat, nat>, w: nat, o: Option<nat>, o': Option<nat>)
    requires IsEarliest(o, a - {w}) && IsEarliest(o', b - {w})
    requires forall v :: v in a ==> Falls(FoldOf(a, v), FoldOf(b, v))
    ensures Falls(o, o')
  {
    if o.Some? {
      var v :| v in a - {w} && (a - {w})[v] == o.value;
      assert Falls(FoldOf(a, v), FoldOf(b, v));
      assert v in b - {w};
    }
  }

  /** One step with a walk live before and after. */
  lemma LiveStep(s: State, a: Action, w: nat)
    requires Inv(s) && Next(s, a).Some? && Inv(Next(s, a).value)
    requires w in s.walks && Live(s.walks[w])
    requires var s' := Next(s, a).value; w in s'.walks && Live(s'.walks[w])
    ensures var s' := Next(s, a).value;
            && s'.roots <= s.roots && (a.Insert? ==> !a.lands) && Falls(s.gate.deadline, s'.gate.deadline)
            && forall v :: v in s.folds ==> Falls(FoldOf(s.folds, v), FoldOf(s'.folds, v))
  {
    LiveCounts(s, w);
    LiveCounts(Next(s, a).value, w);
    hide Inv, LiveWalks;
  }

  /** In every run: as long as a walk is live nothing registers, and the deadline held, and what each call folded into
      it, only falls. */
  lemma {:induction false} WhileAWalkLives(states: seq<State>, acts: seq<Action>, m: nat, n: nat, w: nat)
    requires Run(states, acts) && m <= n < |states|
    requires forall k :: m <= k <= n ==> w in states[k].walks && Live(states[k].walks[w])
    ensures states[n].roots <= states[m].roots
    ensures forall k :: m <= k < n && acts[k].Insert? ==> !acts[k].lands
    ensures forall v :: v in states[m].folds ==> Falls(FoldOf(states[m].folds, v), FoldOf(states[n].folds, v))
    ensures Falls(states[m].gate.deadline, states[n].gate.deadline)
    decreases n - m
  {
    hide Inv, Next;
    if m < n {
      WhileAWalkLives(states, acts, m, n - 1, w);
      RunKeeps(states, acts, n - 1);
      RunKeeps(states, acts, n);
      assert Next(states[n - 1], acts[n - 1]) == Some(states[n]);
      LiveStep(states[n - 1], acts[n - 1], w);
    }
  }
}
