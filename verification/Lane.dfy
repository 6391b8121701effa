/** The stop lane of one incarnation: how a request is answered, and what every run of requests keeps. */
module Lane {
  import opened Base

  datatype StopReason = Graceful | ParentRequest | Failure(code: int) | ParentKilled | Cancelled | Kill

  datatype RaiseResult = Recorded | Superseded | Refused

  /** The lane's cell; `receiverGone` is set once the actor's task has dropped the receiving half. */
  datatype LaneState = LaneState(reason: Option<StopReason>, generation: nat, killOnly: bool, isSealed: bool,
                                 receiverGone: bool)

  const FRESH: LaneState := LaneState(None, 0, false, false, false)

  function Severity(r: StopReason): nat {
    match r
    case Graceful | ParentRequest => 0
    case Failure(_) | ParentKilled | Cancelled => 1
    case Kill => 2
  }

  function Rank(r: StopReason): nat {
    match r
    case Graceful | Cancelled | Kill => 0
    case ParentRequest | ParentKilled => 1
    case Failure(_) => 2
  }

  /** The lane's answer to `r`, whether `r` replaces the stored reason, and whether the generation moves. */
  function Accept(s: LaneState, r: StopReason): (RaiseResult, bool, bool) {
    if s.receiverGone || s.isSealed || (s.killOnly && r != Kill) then (Refused, false, false)
    else if s.reason.None? then (Recorded, true, true)
    else if Severity(r) < Severity(s.reason.value) then (Superseded, false, false)
    else (Recorded, Severity(r) > Severity(s.reason.value) || Rank(r) >= Rank(s.reason.value), true)
  }

  /** Decides and writes one raise, as the lane's one critical section does. */
  function TryRaise(s: LaneState, r: StopReason): (LaneState, RaiseResult) {
    var (result, store, bump) := Accept(s, r);
    if !bump then (s, result)
    else
      var generation := if s.generation == U64_MAX then 0 else s.generation + 1;
      (s.(reason := if store then Some(r) else s.reason, generation := generation), result)
  }

  /** Everything that is ever done to a lane. */
  datatype LaneOp = Raise(reason: StopReason) | CloseToNonKill | Seal | DropReceiver

  function Apply(s: LaneState, op: LaneOp): LaneState {
    match op
    case Raise(r) => TryRaise(s, r).0
    case CloseToNonKill => s.(killOnly := true)
    case Seal => s.(isSealed := true)
    case DropReceiver => s.(receiverGone := true)
  }

  function ApplyAll(s: LaneState, ops: seq<LaneOp>): LaneState
    decreases |ops|
  {
    if ops == [] then s else ApplyAll(Apply(s, ops[0]), ops[1..])
  }

  predicate Refuses(s: LaneState, r: StopReason) { TryRaise(s, r).1 == Refused }

  predicate HoldsKill(s: LaneState) { s.reason == Some(Kill) }

  /** A request stands, or one for `r` is refused. */
  predicate Heard(s: LaneState, r: StopReason) { s.reason.Some? || Refuses(s, r) }

  /** A `Kill` stands, or is refused. */
  predicate KillHeard(s: LaneState) { HoldsKill(s) || Refuses(s, Kill) }

  /** The order a pending request never falls in: nothing, then by severity, then by rank. */
  function Strength(s: LaneState): nat {
    if s.reason.None? then 0 else 1 + 3 * Severity(s.reason.value) + Rank(s.reason.value)
  }

  /** A `Kill` is never superseded: it is refused, or it stands at once. */
  lemma KillIsRefusedOrStands(s: LaneState)
    ensures var (s', result) := TryRaise(s, Kill);
            if result == Refused then s' == s else result == Recorded && HoldsKill(s')
  {
    if s.reason.Some? {
      assert Severity(Kill) >= Severity(s.reason.value);
    }
  }

  lemma OneOpStrengthens(s: LaneState, op: LaneOp, r: StopReason)
    ensures Strength(s) <= Strength(Apply(s, op))
    ensures HoldsKill(s) ==> HoldsKill(Apply(s, op))
    ensures Refuses(s, r) ==> Refuses(Apply(s, op), r)
  {
  }

  /** Whatever is done to a lane, the pending request never weakens, so a `Kill` stands for good, and a
      refusal is final. */
  lemma {:induction false} RequestsOnlyStrengthen(s: LaneState, ops: seq<LaneOp>, r: StopReason)
    ensures Strength(s) <= Strength(ApplyAll(s, ops))
    ensures HoldsKill(s) ==> HoldsKill(ApplyAll(s, ops))
    ensures Refuses(s, r) ==> Refuses(ApplyAll(s, ops), r)
    decreases |ops|
  {
    if ops != [] {
      hide Strength, HoldsKill, Refuses, Apply;
      OneOpStrengthens(s, ops[0], r);
      RequestsOnlyStrengthen(Apply(s, ops[0]), ops[1..], r);
    }
  }

  /** What may have become of a lane by a later moment: a request stays and never weakens, a `Kill` stands, a refusal
      is final. */
  predicate LaneLater(s: LaneState, s': LaneState) {
    && Strength(s) <= Strength(s') && (HoldsKill(s) ==> HoldsKill(s'))
    && (Refuses(s, Kill) ==> Refuses(s', Kill)) && (Refuses(s, ParentRequest) ==> Refuses(s', ParentRequest))
  }

  /** Whatever is done to a lane comes to that. */
  lemma RequestsAreLater(s: LaneState, ops: seq<LaneOp>)
    ensures LaneLater(s, ApplyAll(s, ops))
  {
    RequestsOnlyStrengthen(s, ops, Kill);
    RequestsOnlyStrengthen(s, ops, ParentRequest);
  }

  lemma OpIsLater(s: LaneState, op: LaneOp)
    ensures LaneLater(s, Apply(s, op))
  {
    assert ApplyAll(s, [op]) == Apply(s, op);
    RequestsAreLater(s, [op]);
  }

  lemma RaiseIsLater(s: LaneState, r: StopReason)
    ensures LaneLater(s, TryRaise(s, r).0)
  {
    OpIsLater(s, Raise(r));
  }

  lemma LaneLaterTrans(a: LaneState, b: LaneState, c: LaneState)
    requires LaneLater(a, b) && LaneLater(b, c)
    ensures LaneLater(a, c)
  {
  }

  /** Every reason short of `Kill` is refused alike, so what was heard stays heard. */
  lemma HeardStays(s: LaneState, s': LaneState, r: StopReason)
    requires LaneLater(s, s')
    ensures Heard(s, r) ==> Heard(s', r)
    ensures KillHeard(s) ==> KillHeard(s') && Heard(s', r)
  {
  }

  // ----- What stands, and what is answered

  /** The reasons from the mildest to the strongest: a stop asked for by anyone, by the parent; a cancellation, the
      parent's death, a failure; a `Kill`. */
  function Order(r: StopReason): nat {
    match r
    case Graceful => 0
    case ParentRequest => 1
    case Cancelled => 2
    case ParentKilled => 3
    case Failure(_) => 4
    case Kill => 5
  }

  /** The three levels: a stop asked for, a teardown, a `Kill`. */
  function Level(r: StopReason): nat { if Order(r) < 2 then 0 else if Order(r) < 5 then 1 else 2 }

  predicate IsOpen(s: LaneState) { !s.receiverGone && !s.isSealed && !s.killOnly }

  /** How a lane answers, in any state: it refuses exactly when it is closed to the reason, supersedes exactly what is
      of a lower level than the request standing, and records everything else, which moves its generation by one,
      round 64 bits; nothing else of it changes. */
  lemma AnswerIs(s: LaneState, r: StopReason)
    ensures var (s', result) := TryRaise(s, r);
            && (result == Refused <==> s.receiverGone || s.isSealed || (s.killOnly && r != Kill))
            && (result == Superseded <==>
                  result != Refused && s.reason.Some? && Level(r) < Level(s.reason.value))
            && (result != Recorded ==> s' == s)
            && (result == Recorded ==>
                  && s'.generation == (if s.generation == U64_MAX then 0 else s.generation + 1)
                  && s' == s.(reason := s'.reason, generation := s'.generation)
                  && s'.reason == if s.reason.Some? && Order(r) < Order(s.reason.value) then s.reason else Some(r))
  {
  }

  /** A lane that is closed stays closed: to everything but `Kill`, or to everything. */
  lemma ClosedForGood(s: LaneState, op: LaneOp, ops: seq<LaneOp>, r: StopReason)
    ensures op.CloseToNonKill? && r != Kill ==> Refuses(ApplyAll(Apply(s, op), ops), r)
    ensures op.Seal? || op.DropReceiver? ==> Refuses(ApplyAll(Apply(s, op), ops), r)
  {
    RequestsOnlyStrengthen(Apply(s, op), ops, r);
  }

  function AsRaises(rs: seq<StopReason>): seq<LaneOp> { seq(|rs|, k requires 0 <= k < |rs| => Raise(rs[k])) }

  /** The `k`-th of `rs` is the last of the strongest of them. */
  predicate LastStrongest(rs: seq<StopReason>, k: nat) {
    && k < |rs| && (forall j :: 0 <= j < |rs| ==> Order(rs[j]) <= Order(rs[k]))
    && (forall j :: k < j < |rs| ==> Order(rs[j]) < Order(rs[k]))
  }

  lemma OneMoreRaise(s: LaneState, rs: seq<StopReason>)
    requires rs != []
    ensures ApplyAll(s, AsRaises(rs)) == TryRaise(ApplyAll(s, AsRaises(rs[..|rs| - 1])), rs[|rs| - 1]).0
    decreases |rs|
  {
    var n := |rs| - 1;
    assert AsRaises(rs)[0] == Raise(rs[0]) && AsRaises(rs)[1..] == AsRaises(rs[1..]);
    if n > 0 {
      OneMoreRaise(Apply(s, Raise(rs[0])), rs[1..]);
      assert rs[1..][..n - 1] == rs[..n][1..];
      assert AsRaises(rs[..n])[0] == Raise(rs[0]) && AsRaises(rs[..n])[1..] == AsRaises(rs[..n][1..]);
    } else {
      assert AsRaises(rs[..0]) == [];
    }
  }

  /** Whatever is asked of an open lane, in whatever order, the last of the strongest requests stands. */
  lemma {:induction false} StrongestStands(s: LaneState, rs: seq<StopReason>) returns (k: nat)
    requires IsOpen(s) && s.reason.None? && rs != []
    ensures LastStrongest(rs, k) && ApplyAll(s, AsRaises(rs)).reason == Some(rs[k]) && IsOpen(ApplyAll(s, AsRaises(rs)))
    decreases |rs|
  {
    var n := |rs| - 1;
    OneMoreRaise(s, rs);
    if n == 0 {
      k := 0;
      assert AsRaises(rs[..0]) == [];
    } else {
      var j := StrongestStands(s, rs[..n]);
      AnswerIs(ApplyAll(s, AsRaises(rs[..n])), rs[n]);
      k := if Order(rs[n]) < Order(rs[j]) then j else n;
      hide TryRaise;
    }
  }
}
