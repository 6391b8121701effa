/** The abort record of one incarnation, and the floor under the verdict of a wait that follows it. */
module AbortRecord {
  import opened Base

  /** `at`: the first abort issued; `owed`: an abort is owed and not issued yet; `ended`: the actor has ended. */
  datatype Record = Record(at: Option<nat>, owed: bool, ended: bool)

  const BLANK: Record := Record(None, false, false)

  function Release(r: Record): Record { r.(ended := true, owed := false) }

  function OweFor(r: Record, finished: bool): Record {
    if finished then Release(r)
    else if r.ended || r.owed || r.at.Some? then r
    else r.(owed := true)
  }

  /** Every abort goes through here: a finished task gets none, and the first instant recorded stands. */
  function Abort(r: Record, finished: bool, now: nat): Record {
    if finished then Release(r)
    else if r.at.Some? then r
    else r.(at := Some(now), owed := false)
  }

  datatype Op = Owing(finished: bool) | Aborting(finished: bool, now: nat) | TaskEnded

  function Apply(r: Record, op: Op): Record {
    match op
    case Owing(finished) => OweFor(r, finished)
    case Aborting(finished, now) => Abort(r, finished, now)
    case TaskEnded => Release(r)
  }

  function ApplyAll(r: Record, ops: seq<Op>): Record
    decreases |ops|
  {
    if ops == [] then r else ApplyAll(Apply(r, ops[0]), ops[1..])
  }

  predicate Ok(r: Record) { !(r.at.Some? && r.owed) && !(r.ended && r.owed) }

  /** Whatever is done to a record, no abort reads both issued and owed, the first one issued stands, and nothing
      is owed to an actor that has ended. */
  lemma {:induction false} FirstAbortStands(r: Record, ops: seq<Op>)
    requires Ok(r)
    ensures Ok(ApplyAll(r, ops))
    ensures r.at.Some? ==> ApplyAll(r, ops).at == r.at
    ensures r.ended ==> ApplyAll(r, ops).ended && !ApplyAll(r, ops).owed
    decreases |ops|
  {
    if ops != [] {
      FirstAbortStands(Apply(r, ops[0]), ops[1..]);
    }
  }

  /** The op issues an abort, and ends the record's actor. */
  predicate Issues(op: Op) { op.Aborting? && !op.finished }

  predicate Ends(op: Op) { op.TaskEnded? || op.finished }

  /** The first abort issued by `ops`, if there is one. */
  predicate FirstIssued(ops: seq<Op>, at: Option<nat>) {
    if at.None? then forall k :: 0 <= k < |ops| ==> !Issues(ops[k])
    else
      exists k :: 0 <= k < |ops| && Issues(ops[k]) && ops[k].now == at.value
          && forall j :: 0 <= j < k ==> !Issues(ops[j])
  }

  lemma {:induction false} OneMoreOp(r: Record, ops: seq<Op>)
    requires ops != []
    ensures ApplyAll(r, ops) == Apply(ApplyAll(r, ops[..|ops| - 1]), ops[|ops| - 1])
    decreases |ops|
  {
    var n := |ops| - 1;
    if n > 0 {
      OneMoreOp(Apply(r, ops[0]), ops[1..]);
      assert ops[1..][..n - 1] == ops[..n][1..];
    }
  }

  /** What a record reads as, after anything that is done to it: the instant of the first abort issued to a task that
      had not finished; ended, if the actor was seen to end or a finished task was to be aborted; and owed exactly when
      an abort was owed and neither has come. */
  lemma {:induction false} RecordIs(ops: seq<Op>)
    ensures var r := ApplyAll(BLANK, ops);
            && FirstIssued(ops, r.at) && (r.ended <==> exists k :: 0 <= k < |ops| && Ends(ops[k]))
            && (r.owed <==> r.at.None? && !r.ended && exists k :: 0 <= k < |ops| && ops[k].Owing?)
    decreases |ops|
  {
    if ops != [] {
      var n := |ops| - 1;
      OneMoreOp(BLANK, ops);
      RecordIs(ops[..n]);
      var before, r, last := ApplyAll(BLANK, ops[..n]), ApplyAll(BLANK, ops), ops[n];
      assert forall k :: 0 <= k < n ==> ops[..n][k] == ops[k];
      if before.at.Some? {
        var k :| 0 <= k < n && Issues(ops[k]) && ops[k].now == before.at.value
            && forall j :: 0 <= j < k ==> !Issues(ops[j]);
        assert Issues(ops[k]) && ops[k].now == r.at.value;
      } else if Issues(last) {
        assert Issues(ops[n]) && ops[n].now == r.at.value;
      }
      if before.ended {
        var k :| 0 <= k < n && Ends(ops[k]);
        assert Ends(ops[k]);
      } else if Ends(last) {
        assert Ends(ops[n]);
      }
      if k :| 0 <= k < n && ops[k].Owing? {
        assert ops[..n][k].Owing?;
      }
      assert last.Owing? ==> ops[n].Owing?;
    }
  }

  /** An abort is owed, issued, or no longer needed. */
  predicate OwedOrSettled(r: Record) { r.owed || Settled(r) }

  /** An abort is issued, or no longer needed. */
  predicate Settled(r: Record) { r.at.Some? || r.ended }

  /** What may have become of a record by a later moment. */
  predicate RecordLater(r: Record, r': Record) {
    && (r.at.Some? ==> r'.at == r.at) && (r.ended ==> r'.ended) && (OwedOrSettled(r) ==> OwedOrSettled(r'))
      && (Ok(r) ==> Ok(r'))
  }

  /** Whatever is done to a record comes to that: what is owed stays owed until it is issued or the actor ends. */
  lemma {:induction false} OpsAreLater(r: Record, ops: seq<Op>)
    ensures RecordLater(r, ApplyAll(r, ops))
    decreases |ops|
  {
    if ops != [] {
      OpsAreLater(Apply(r, ops[0]), ops[1..]);
    }
  }

  /** A settled record is owed nothing, now or later. */
  lemma SettledForGood(r: Record, ops: seq<Op>)
    requires Ok(r) && Settled(r)
    ensures Settled(ApplyAll(r, ops)) && !ApplyAll(r, ops).owed
  {
    FirstAbortStands(r, ops);
  }

  /** The earliest instant a wait may give up on its target. */
  function VerdictFloor(budgetAt: nat, cap: nat, r: Record): nat {
    var settled := if r.at.Some? then Max(budgetAt, SaturatingDeadline(r.at.value, ABORT_SETTLE)) else budgetAt;
    var held := if r.owed then Max(settled, SaturatingDeadline(budgetAt, cap)) else settled;
    Min(held, Ceiling(budgetAt, cap))
  }

  /** The latest the floor can be, whatever is owed or issued. */
  function Ceiling(budgetAt: nat, cap: nat): nat { SaturatingDeadline(SaturatingDeadline(budgetAt, cap), ABORT_SETTLE) }

  /** The floor is never before the wait's own deadline nor past the ceiling; it leaves an abort issued up to the
      cap its whole settle time; and with nothing owed and nothing issued it is the deadline. */
  lemma FloorBounds(budgetAt: nat, cap: nat, r: Record)
    ensures budgetAt <= VerdictFloor(budgetAt, cap, r) <= Ceiling(budgetAt, cap)
    ensures r.at.Some? && r.at.value <= SaturatingDeadline(budgetAt, cap) ==>
              r.at.value + ABORT_SETTLE <= VerdictFloor(budgetAt, cap, r)
    ensures r.owed ==> SaturatingDeadline(budgetAt, cap) <= VerdictFloor(budgetAt, cap, r)
    ensures r.at.None? && !r.owed ==> VerdictFloor(budgetAt, cap, r) == budgetAt
  {
  }
}
