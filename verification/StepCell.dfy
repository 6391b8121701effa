/** The step cell of a bounded stop: a 16-bit cell that counts the raisers of the call's `Kill` in flight and
    is absorbed by `KILLED` once one of them is accepted. Any number of raisers, each at its own program
    counter, interleave with each other, with the actor's own use of its lane, and with the readers of the
    cell; a raiser may unwind at any point. */
module StepCell {
  import opened Base
  import opened Lane

  const REQUESTED: nat := 0
  const KILLED: nat := 0xFFFF

  /** The most raisers the cell counts without reaching `KILLED`. */
  const CAPACITY: nat := KILLED - 1

  /** Where a raiser is. `share` says whether it holds a share of the count: it holds none when it found the
      cell `KILLED`. */
  datatype Pc =
    | Loading
    | Exchanging(seen: nat)
    | Between(share: bool)
    | Raising(share: bool)
    | Raised(share: bool, accepted: bool)    // the lane has answered, its wakes run
    | Settled(share: bool, accepted: bool)
    | Storing                                // dropping a share whose `Kill` stands or may stand
    | GivingBack                             // dropping any other share: about to load
    | Returning(seen: nat)                   // dropping any other share: about to compare-exchange
    | Done

  /** `accepted` records that the lane accepted a raise of this call, `unwound` that a raiser of it unwound
      out of the raise itself. */
  datatype State = State(cell: nat, lane: LaneState, raisers: map<nat, Pc>, accepted: bool, unwound: bool)

  datatype Action =
    | Start(t: nat)
    | Advance(t: nat, spurious: bool)  // the raiser's next atomic step; a weak exchange may fail for no reason
    | Unwind(t: nat)
    | LaneStep(op: LaneOp)             // anyone else's use of the lane

  predicate HoldsShare(pc: Pc) {
    match pc
    case Between(share) => share
    case Raising(share) => share
    case Raised(share, _) => share
    case Settled(share, _) => share
    case Storing | GivingBack | Returning(_) => true
    case _ => false
  }

  function Put(s: State, t: nat, pc: Pc): State { s.(raisers := s.raisers[t := pc]) }

  /** One atomic step of raiser `t` at `pc`. */
  function AdvanceAt(s: State, t: nat, pc: Pc, spurious: bool): State {
    match pc
    case Loading => Put(s, t, Exchanging(s.cell))
    case Exchanging(seen) =>
      if seen == KILLED then Put(s, t, Between(false))
      else if spurious || s.cell != seen then Put(s, t, Exchanging(s.cell))
      else Put(s.(cell := seen + 1), t, Between(true))
    case Between(share) => Put(s, t, Raising(share))
    case Raising(share) =>
      var (lane, result) := TryRaise(s.lane, Kill);
      var took := result != Refused;
      Put(s.(lane := lane, accepted := s.accepted || took), t, Raised(share, took))
    case Raised(share, accepted) => Put(s, t, Settled(share, accepted))
    case Settled(share, accepted) => Put(s, t, if !share then Done else if accepted then Storing else GivingBack)
    case Storing => Put(s.(cell := KILLED), t, Done)
    case GivingBack => Put(s, t, Returning(s.cell))
    case Returning(seen) =>
      if seen == KILLED || seen == REQUESTED then Put(s, t, Done)
      else if spurious || s.cell != seen then Put(s, t, Returning(s.cell))
      else Put(s.(cell := seen - 1), t, Done)
    case Done => s
  }

  /** Where an unwind takes a raiser: the share it holds is settled by its drop, all the same. */
  function UnwindTo(pc: Pc): Pc {
    match pc
    case Between(share) => if share then GivingBack else Done
    case Raising(share) => if share then Storing else Done
    case Raised(share, _) => if share then Storing else Done
    case Settled(share, accepted) => if !share then Done else if accepted then Storing else GivingBack
    case _ => pc
  }

  function Next(s: State, a: Action): Option<State> {
    match a
    case Start(t) => if t in s.raisers then None else Some(Put(s, t, Loading))
    case Advance(t, spurious) =>
      if t in s.raisers && s.raisers[t] != Done then Some(AdvanceAt(s, t, s.raisers[t], spurious)) else None
    case Unwind(t) =>
      if t in s.raisers && UnwindTo(s.raisers[t]) != s.raisers[t] then
        var out := s.raisers[t].Raising? || s.raisers[t].Raised?;
        Some(Put(s.(unwound := s.unwound || out), t, UnwindTo(s.raisers[t])))
      else None
    case LaneStep(op) => Some(s.(lane := Apply(s.lane, op)))
  }

  /** What `requested()` answers at one load of the cell: nothing while a step is in progress. */
  datatype Answer = Pending | Graceful | Killed

  function Requested(s: State): Answer {
    if s.cell == KILLED then Killed else if s.cell == REQUESTED then Answer.Graceful else Pending
  }

  function Holders(s: State): set<nat> { set t | t in s.raisers && HoldsShare(s.raisers[t]) }

  function InFlight(s: State): set<nat> { set t | t in s.raisers && s.raisers[t] != Done }

  /** No more raisers at once than the cell counts. */
  predicate Bounded(s: State) { |InFlight(s)| <= CAPACITY }

  predicate Init(s: State) { s.cell == REQUESTED && s.raisers == map[] && !s.accepted && !s.unwound }

  ghost predicate Run(states: seq<State>, acts: seq<Action>) {
    && |states| == |acts| + 1
    && Init(states[0])
    && forall i :: 0 <= i < |acts| ==> Next(states[i], acts[i]) == Some(states[i + 1])
  }

  /** A raiser whose `Kill` the lane took, with its share not yet settled. */
  predicate Carries(pc: Pc) {
    match pc
    case Raised(share, accepted) => share && accepted
    case Settled(share, accepted) => share && accepted
    case Storing => true
    case _ => false
  }

  /** A raiser that settles its share at `KILLED` is one whose `Kill` stands or may stand. */
  predicate Justified(s: State, pc: Pc) {
    match pc
    case Exchanging(seen) => seen <= KILLED && (seen == KILLED ==> s.cell == KILLED)
    case Between(share) => share || s.cell == KILLED
    case Raising(share) => share || s.cell == KILLED
    case Raised(share, accepted) => (share || s.cell == KILLED) && (accepted ==> s.accepted)
    case Settled(share, accepted) => (share || s.cell == KILLED) && (accepted ==> s.accepted)
    case Storing => s.accepted || s.unwound
    case Returning(seen) => seen <= KILLED && seen != REQUESTED && (seen == KILLED ==> s.cell == KILLED)
    case _ => true
  }

  ghost predicate Inv(s: State) {
    && (s.cell == KILLED || s.cell == |Holders(s)|)
    && s.cell <= KILLED
    && (forall t :: t in s.raisers ==> Justified(s, s.raisers[t]))
    && (s.cell == KILLED ==> s.accepted || s.unwound)
    && (s.accepted ==> s.cell == KILLED || exists t :: t in s.raisers && Carries(s.raisers[t]))
  }

  /** Moving one raiser changes the holders by that raiser alone. */
  lemma HoldersMove(s: State, t: nat, pc: Pc)
    ensures Holders(Put(s, t, pc)) == if HoldsShare(pc) then Holders(s) + {t} else Holders(s) - {t}
  {
  }

  lemma HoldersInFlight(s: State)
    ensures Holders(s) <= InFlight(s)
    ensures |Holders(s)| <= |InFlight(s)|
  {
    Subsets(Holders(s), InFlight(s));
  }

  lemma {:induction false} Subsets(a: set<nat>, b: set<nat>)
    requires a <= b
    ensures |a| <= |b|
  {
    assert b == a + (b - a);
  }

  lemma OthersJustified(s: State, s': State, t: nat, pc: Pc)
    requires forall u :: u in s.raisers ==> Justified(s, s.raisers[u])
    requires s'.raisers == s.raisers[t := pc] && Justified(s', pc) && (s.cell == KILLED ==> s'.cell == KILLED)
    requires (s.accepted ==> s'.accepted) && (s.unwound ==> s'.unwound)
    ensures forall u :: u in s'.raisers ==> Justified(s', s'.raisers[u])
  {
    forall u | u in s'.raisers ensures Justified(s', s'.raisers[u]) {
      if u != t {
        assert Justified(s, s.raisers[u]);
      }
    }
  }

  lemma StillCarried(s: State, s': State, t: nat, pc: Pc)
    requires s'.raisers == s.raisers[t := pc]
    requires Carries(pc) || (exists u :: u in s.raisers && u != t && Carries(s.raisers[u]))
    ensures exists u :: u in s'.raisers && Carries(s'.raisers[u])
  {
    if Carries(pc) {
      assert Carries(s'.raisers[t]);
    } else {
      var u :| u in s.raisers && u != t && Carries(s.raisers[u]);
      assert Carries(s'.raisers[u]);
    }
  }

  /** A step that moves raiser `t` alone, never leaves `KILLED` and forgets nothing keeps the invariant, once it
      accounts for its own share and for its own `Kill`. */
  lemma MoveKeeps(s: State, s': State, t: nat, pc: Pc)
    requires Inv(s) && s'.raisers == s.raisers[t := pc] && s'.cell <= KILLED
    requires s.cell == KILLED ==> s'.cell == KILLED
    requires s'.cell == KILLED || s'.cell == |if HoldsShare(pc) then Holders(s) + {t} else Holders(s) - {t}|
    requires (s.accepted ==> s'.accepted) && (s.unwound ==> s'.unwound)
    requires s'.cell == KILLED ==> s'.accepted || s'.unwound
    requires Justified(s', pc)
    requires s'.accepted ==>
               s'.cell == KILLED || Carries(pc) || (s.accepted && (t in s.raisers ==> !Carries(s.raisers[t])))
    ensures Inv(s')
  {
    HoldersMove(s, t, pc);
    assert Holders(s') == Holders(Put(s, t, pc));
    OthersJustified(s, s', t, pc);
    if s'.accepted && s'.cell != KILLED {
      StillCarried(s, s', t, pc);
    }
  }

  lemma OneHolder(s: State, t: nat)
    requires t in s.raisers
    ensures HoldsShare(s.raisers[t]) ==> Holders(s) + {t} == Holders(s) && |Holders(s) - {t}| == |Holders(s)| - 1
    ensures !HoldsShare(s.raisers[t]) ==> Holders(s) - {t} == Holders(s) && |Holders(s) + {t}| == |Holders(s)| + 1
  {
    assert HoldsShare(s.raisers[t]) <==> t in Holders(s);
  }

  lemma InvFacts(s: State, t: nat)
    requires Inv(s) && t in s.raisers
    ensures Justified(s, s.raisers[t]) && s.cell <= KILLED && (s.cell == KILLED ==> s.accepted || s.unwound)
    ensures s.cell == KILLED || s.cell == |Holders(s)|
  {
  }

  lemma TakeKeeps(s: State, t: nat, spurious: bool)
    requires Inv(s) && t in s.raisers && |Holders(s)| < CAPACITY && s.raisers[t].Exchanging?
    ensures Inv(AdvanceAt(s, t, s.raisers[t], spurious))
  {
    var s' := AdvanceAt(s, t, s.raisers[t], spurious);
    OneHolder(s, t);
    InvFacts(s, t);
    hide Holders, Inv;
    if s.raisers[t].seen == KILLED {
      MoveKeeps(s, s', t, Between(false));
    } else if spurious || s.cell != s.raisers[t].seen {
      MoveKeeps(s, s', t, Exchanging(s.cell));
    } else {
      MoveKeeps(s, s', t, Between(true));
    }
  }

  lemma RaiseKeeps(s: State, t: nat, spurious: bool)
    requires Inv(s) && t in s.raisers && s.raisers[t].Raising?
    ensures Inv(AdvanceAt(s, t, s.raisers[t], spurious))
  {
    var s' := AdvanceAt(s, t, s.raisers[t], spurious);
    OneHolder(s, t);
    InvFacts(s, t);
    hide Holders, Inv, TryRaise;
    MoveKeeps(s, s', t, s'.raisers[t]);
  }

  lemma GiveKeeps(s: State, t: nat, spurious: bool)
    requires Inv(s) && t in s.raisers && (s.raisers[t].Storing? || s.raisers[t].GivingBack? || s.raisers[t].Returning?)
    ensures Inv(AdvanceAt(s, t, s.raisers[t], spurious))
  {
    var s' := AdvanceAt(s, t, s.raisers[t], spurious);
    OneHolder(s, t);
    InvFacts(s, t);
    assert s.cell == KILLED || s.cell > 0;
    hide Holders, Inv;
    MoveKeeps(s, s', t, s'.raisers[t]);
  }

  lemma WalkOnKeeps(s: State, t: nat, spurious: bool)
    requires Inv(s) && t in s.raisers
    requires s.raisers[t].Loading? || s.raisers[t].Between? || s.raisers[t].Raised? || s.raisers[t].Settled?
    ensures Inv(AdvanceAt(s, t, s.raisers[t], spurious))
  {
    var s' := AdvanceAt(s, t, s.raisers[t], spurious);
    OneHolder(s, t);
    InvFacts(s, t);
    hide Holders, Inv;
    MoveKeeps(s, s', t, s'.raisers[t]);
  }

  lemma AdvanceKeeps(s: State, t: nat, spurious: bool)
    requires Inv(s) && t in s.raisers && s.raisers[t] != Done
    requires |Holders(s)| < CAPACITY || !s.raisers[t].Exchanging?
    ensures Inv(AdvanceAt(s, t, s.raisers[t], spurious))
  {
    hide Inv, AdvanceAt, Holders;
    match s.raisers[t]
    case Exchanging(_) => TakeKeeps(s, t, spurious);
    case Raising(_) => RaiseKeeps(s, t, spurious);
    case Storing | GivingBack | Returning(_) => GiveKeeps(s, t, spurious);
    case _ => WalkOnKeeps(s, t, spurious);
  }

  lemma UnwindKeeps(s: State, t: nat)
    requires Inv(s) && Next(s, Unwind(t)).Some?
    ensures Inv(Next(s, Unwind(t)).value)
  {
    var s' := Next(s, Unwind(t)).value;
    OneHolder(s, t);
    MoveKeeps(s, s', t, s'.raisers[t]);
  }

  lemma LaneStepKeeps(s: State, op: LaneOp)
    requires Inv(s)
    ensures Inv(s.(lane := Apply(s.lane, op)))
  {
    var s' := s.(lane := Apply(s.lane, op));
    assert Holders(s') == Holders(s);
    if s.accepted && s.cell != KILLED {
      var u :| u in s.raisers && Carries(s.raisers[u]);
      assert Carries(s'.raisers[u]);
    }
    forall t | t in s'.raisers ensures Justified(s', s'.raisers[t]) {
      assert Justified(s, s.raisers[t]);
    }
  }

  /** A raiser about to take a share is not a holder, so the count has room for it. */
  lemma RoomToExchange(s: State, t: nat)
    requires Bounded(s) && t in s.raisers && s.raisers[t].Exchanging?
    ensures |Holders(s)| < CAPACITY
  {
    assert t in InFlight(s) && t !in Holders(s);
    Subsets(Holders(s) + {t}, InFlight(s));
  }

  lemma StepKeeps(s: State, a: Action)
    requires Inv(s) && Bounded(s) && Next(s, a).Some?
    ensures Inv(Next(s, a).value)
  {
    match a
    case Start(t) =>
      assert Holders(s) - {t} == Holders(s);
      MoveKeeps(s, Next(s, a).value, t, Loading);
    case Advance(t, spurious) =>
      if s.raisers[t].Exchanging? {
        RoomToExchange(s, t);
      }
      AdvanceKeeps(s, t, spurious);
    case Unwind(t) => UnwindKeeps(s, t);
    case LaneStep(op) => LaneStepKeeps(s, op);
  }

  /** In every run of at most `CAPACITY` raisers at once, unwinds included, the cell is `KILLED` or exactly the
      number of shares not yet settled. */
  lemma {:induction false} CellCountsShares(states: seq<State>, acts: seq<Action>, i: nat)
    requires Run(states, acts) && i < |states|
    requires forall k :: 0 <= k < |states| ==> Bounded(states[k])
    ensures Inv(states[i])
  {
    if i == 0 {
      assert Holders(states[0]) == {};
    } else {
      CellCountsShares(states, acts, i - 1);
      assert Next(states[i - 1], acts[i - 1]) == Some(states[i]);
      StepKeeps(states[i - 1], acts[i - 1]);
    }
  }

  /** `KILLED` is never left and an accepted raise is never forgotten. */
  lemma {:induction false} KilledForGood(states: seq<State>, acts: seq<Action>, i: nat, j: nat)
    requires Run(states, acts) && i <= j < |states|
    ensures states[i].cell == KILLED ==> states[j].cell == KILLED
    ensures states[i].accepted ==> states[j].accepted
    decreases j - i
  {
    if i < j {
      assert Next(states[i], acts[i]) == Some(states[i + 1]);
      KilledForGood(states, acts, i + 1, j);
    }
  }

  /** Once a raise of the call has been accepted, no reader is answered `Graceful` from then on; a reader is
      answered `Killed` only when a raise was accepted or a raiser unwound out of one; and with no raiser in
      flight every reader is answered, `Killed` if a raise was accepted. */
  lemma NoAcceptedKillReadsGraceful(states: seq<State>, acts: seq<Action>, i: nat, j: nat)
    requires Run(states, acts) && i <= j < |states|
    requires forall k :: 0 <= k < |states| ==> Bounded(states[k])
    ensures states[i].accepted ==> Requested(states[j]) != Answer.Graceful
    ensures Requested(states[i]) == Killed ==> Requested(states[j]) == Killed
    ensures Requested(states[j]) == Killed ==> states[j].accepted || states[j].unwound
    ensures InFlight(states[j]) == {} ==> Requested(states[j]) != Pending
    ensures InFlight(states[j]) == {} && states[i].accepted ==> Requested(states[j]) == Killed
  {
    var s := states[j];
    CellCountsShares(states, acts, j);
    KilledForGood(states, acts, i, j);
    HoldersInFlight(s);
    if s.accepted && s.cell != KILLED {
      var u :| u in s.raisers && Carries(s.raisers[u]);
      assert u in Holders(s) && u in InFlight(s);
      Subsets({u}, Holders(s));
    }
  }

  lemma OneStepMore(states: seq<State>, acts: seq<Action>, a: Action, s: State)
    requires Run(states, acts) && Next(states[|acts|], a) == Some(s)
    ensures Run(states + [s], acts + [a])
  {
  }

  // ----- Every raiser raises

  /** The raiser has been through its raise. */
  predicate PastRaise(pc: Pc) {
    pc.Raised? || pc.Settled? || pc.Storing? || pc.GivingBack? || pc.Returning? || pc.Done?
  }

  predicate NoUnwind(acts: seq<Action>, n: nat, t: nat)
    requires n <= |acts|
  {
    forall k :: 0 <= k < n ==> acts[k] != Unwind(t)
  }

  /** The lane refused a `Kill` somewhere before the `n`-th state. */
  predicate RefusedBefore(states: seq<State>, n: nat)
    requires n <= |states|
  {
    exists k :: 0 <= k < n && Refuses(states[k].lane, Kill)
  }

  lemma RefusedStays(states: seq<State>, m: nat, n: nat)
    requires m <= n <= |states| && RefusedBefore(states, m)
    ensures RefusedBefore(states, n)
  {
    var k :| 0 <= k < m && Refuses(states[k].lane, Kill);
    assert Refuses(states[k].lane, Kill);
  }

  /** One step: a lane that has heard a `Kill` has heard it for good, and whoever comes out of its raise left it so,
      accepted unless the lane refused it. */
  lemma RaisesHere(s: State, a: Action, t: nat)
    requires Next(s, a).Some? && t in s.raisers && a != Unwind(t)
    ensures var s' := Next(s, a).value;
            && t in s'.raisers && (KillHeard(s.lane) ==> KillHeard(s'.lane)) && (s.accepted ==> s'.accepted)
            && (PastRaise(s'.raisers[t]) && !PastRaise(s.raisers[t]) ==>
                  KillHeard(s'.lane) && (s'.accepted || Refuses(s.lane, Kill)))
  {
    hide KillHeard, Refuses, TryRaise, Apply;
    KillRaised(s.lane);
    if a.LaneStep? {
      OpIsLater(s.lane, a.op);
      HeardStays(s.lane, Apply(s.lane, a.op), Kill);
    }
  }

  lemma KillRaised(l: LaneState)
    ensures KillHeard(TryRaise(l, Kill).0) && (TryRaise(l, Kill).1 == Refused <==> Refuses(l, Kill))
  {
    KillIsRefusedOrStands(l);
  }

  /** In every run, a raiser past its raise that did not unwind has raised: the lane holds a `Kill` or refuses one,
      and the call's raise was accepted unless the lane refused a `Kill` before. */
  lemma {:induction false} RaisersRaise(states: seq<State>, acts: seq<Action>, n: nat, t: nat)
    requires Run(states, acts) && n < |states| && NoUnwind(acts, n, t)
    requires t in states[n].raisers && PastRaise(states[n].raisers[t])
    ensures KillHeard(states[n].lane) && (states[n].accepted || RefusedBefore(states, n))
  {
    if n > 0 {
      var s, a := states[n - 1], acts[n - 1];
      assert Next(s, a) == Some(states[n]);
      if t in s.raisers {
        RaisesHere(s, a, t);
        if PastRaise(s.raisers[t]) {
          RaisersRaise(states, acts, n - 1, t);
          if !states[n].accepted {
            RefusedStays(states, n - 1, n);
          }
        } else {
          assert states[n].accepted || Refuses(states[n - 1].lane, Kill);
        }
      }
    }
  }

  /** In every run of raisers the cell can count: once a raiser that did not unwind is done, the lane holds a `Kill` or
      refuses one; and unless the lane refused a `Kill` before, no reader is answered `Graceful` from then on, and
      with no raiser in flight every reader is answered `Killed`. */
  lemma DoneRaiserReadsKilled(states: seq<State>, acts: seq<Action>, i: nat, j: nat, t: nat)
    requires Run(states, acts) && i <= j < |states| && NoUnwind(acts, i, t)
    requires forall k :: 0 <= k < |states| ==> Bounded(states[k])
    requires t in states[i].raisers && states[i].raisers[t] == Done
    ensures KillHeard(states[i].lane)
    ensures !RefusedBefore(states, i) ==> Requested(states[j]) != Answer.Graceful
    ensures !RefusedBefore(states, i) && InFlight(states[j]) == {} ==> Requested(states[j]) == Killed
  {
    RaisersRaise(states, acts, i, t);
    NoAcceptedKillReadsGraceful(states, acts, i, j);
  }

  /** In every run: a raiser that unwinds out of its raise, or out of what follows it before its share is settled, with
      a share, leaves the cell `KILLED` once it is done: its `Kill` may stand. */
  lemma {:induction false} UnwoundReadsKilled(states: seq<State>, acts: seq<Action>, i: nat, j: nat, t: nat)
    requires Run(states, acts) && i < j < |states| && acts[i] == Unwind(t) && t in states[i].raisers
    requires states[i].raisers[t] == Raising(true)
             || (states[i].raisers[t].Raised? && states[i].raisers[t].share)
    ensures t in states[j].raisers && (states[j].raisers[t] == Storing || Requested(states[j]) == Killed)
    ensures states[j].raisers[t] == Storing || states[j].raisers[t] == Done
    decreases j
  {
    hide Next;
    var s, a := states[j - 1], acts[j - 1];
    assert Next(s, a) == Some(states[j]);
    if j > i + 1 {
      UnwoundReadsKilled(states, acts, i, j - 1, t);
      StoresOrDone(s, a, t);
    } else {
      UnwindsOut(s, t);
    }
  }

  lemma StoresOrDone(s: State, a: Action, t: nat)
    requires Next(s, a).Some? && t in s.raisers
    requires s.raisers[t] == Storing || (s.raisers[t] == Done && s.cell == KILLED)
    ensures var s' := Next(s, a).value;
            t in s'.raisers && (s'.raisers[t] == Storing || (s'.raisers[t] == Done && s'.cell == KILLED))
  {
    hide TryRaise, Apply;
  }

  lemma UnwindsOut(s: State, t: nat)
    requires t in s.raisers && Next(s, Unwind(t)).Some?
    requires s.raisers[t] == Raising(true) || (s.raisers[t].Raised? && s.raisers[t].share)
    ensures t in Next(s, Unwind(t)).value.raisers && Next(s, Unwind(t)).value.raisers[t] == Storing
  {
  }

  /** How many steps of its own a raiser has left when nothing comes between them. */
  function StepsLeft(s: State, pc: Pc): nat {
    match pc
    case Loading => 10
    case Exchanging(seen) => if seen == KILLED || seen == s.cell then 8 else 9
    case Between(_) => 7
    case Raising(_) => 6
    case Raised(_, _) => 5
    case Settled(_, _) => 4
    case GivingBack => 3
    case Returning(seen) => if seen == KILLED || seen == REQUESTED || seen == s.cell then 1 else 2
    case Storing => 1
    case Done => 0
  }

  /** Wherever a raiser is, left alone it comes to its end: each step of its own brings it nearer. */
  lemma AloneItEnds(s: State, t: nat)
    requires t in s.raisers && s.raisers[t] != Done
    ensures var s' := AdvanceAt(s, t, s.raisers[t], false);
            t in s'.raisers && StepsLeft(s', s'.raisers[t]) < StepsLeft(s, s.raisers[t])
  {
  }

  /** Any run can go on to that end, by the steps of that raiser alone. */
  lemma {:induction false} RaiserFinishes(states: seq<State>, acts: seq<Action>, t: nat)
    returns (states': seq<State>, acts': seq<Action>)
    requires Run(states, acts) && t in states[|acts|].raisers
    ensures Run(states', acts') && states <= states' && acts <= acts'
    ensures forall k :: |acts| <= k < |acts'| ==> acts'[k] == Advance(t, false)
    ensures t in states'[|acts'|].raisers && states'[|acts'|].raisers[t] == Done
    decreases StepsLeft(states[|acts|], states[|acts|].raisers[t])
  {
    states', acts' := states, acts;
    var s := states[|acts|];
    if s.raisers[t] != Done {
      var a, s1 := Advance(t, false), AdvanceAt(s, t, s.raisers[t], false);
      AloneItEnds(s, t);
      OneStepMore(states, acts, a, s1);
      states', acts' := RaiserFinishes(states + [s1], acts + [a], t);
    }
  }

  // ----- How many raisers

  /** `n` raisers all hold a share and run `between`. */
  predicate Crowd(s: State, n: nat) {
    && s.cell == n && |s.raisers| == n && !s.accepted && !s.unwound
    && forall t :: t in s.raisers ==> t < n && s.raisers[t] == Between(true)
  }

  /** One more raiser comes to the crowd. */
  lemma Joined(s0: State, t: nat) returns (s1: State, s2: State, s3: State)
    requires Crowd(s0, t) && t < KILLED
    ensures Next(s0, Start(t)) == Some(s1) && Next(s1, Advance(t, false)) == Some(s2)
    ensures Next(s2, Advance(t, false)) == Some(s3) && Crowd(s3, t + 1)
  {
    s1 := Put(s0, t, Loading);
    s2 := Put(s1, t, Exchanging(t));
    s3 := Put(s2.(cell := t + 1), t, Between(true));
    assert s3.raisers.Keys == s0.raisers.Keys + {t};
  }

  lemma {:induction false} Gather(n: nat) returns (states: seq<State>, acts: seq<Action>)
    requires n <= KILLED
    ensures Run(states, acts) && Crowd(states[|acts|], n)
  {
    if n == 0 {
      states, acts := [State(0, FRESH, map[], false, false)], [];
    } else {
      var t := n - 1;
      states, acts := Gather(t);
      hide Run, Crowd, Next;
      var s0 := states[|acts|];
      var s1, s2, s3 := Joined(s0, t);
      OneStepMore(states, acts, Start(t), s1);
      states, acts := states + [s1], acts + [Start(t)];
      OneStepMore(states, acts, Advance(t, false), s2);
      states, acts := states + [s2], acts + [Advance(t, false)];
      OneStepMore(states, acts, Advance(t, false), s3);
      states, acts := states + [s3], acts + [Advance(t, false)];
    }
  }

  /** The bound on the raisers is exact: one raiser more than `CAPACITY` moves the count onto `KILLED`, and a
      reader is answered `Killed` with no raise of the call ever entered. */
  lemma CapacityIsExact() returns (states: seq<State>, acts: seq<Action>)
    ensures Run(states, acts)
    ensures var last := states[|acts|];
            |InFlight(last)| == CAPACITY + 1 && Requested(last) == Killed && !last.accepted && !last.unwound
  {
    states, acts := Gather(KILLED);
    assert InFlight(states[|acts|]) == states[|acts|].raisers.Keys;
  }
}
