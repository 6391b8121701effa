/** How a shutdown stops a batch of roots: the sequential ladder, and the concurrent force once the global deadline
    cuts it. */
module Walk {
  import opened Base
  import Gate
  import opened Lane
  import opened Verdict
  import opened World

  /** A snapshot of one incarnation. */
  datatype Root = Root(id: nat, serial: nat, grace: nat)

  datatype Target = Target(root: Root, killRaised: bool)

  /** One line of the shutdown's report, on the incarnation of `root`. */
  datatype Report = Line(root: Root, outcome: Outcome)

  /** What a shutdown goes by: its policy and its deadline, and, not of its own choosing, the incarnations whose
      force or wait tasks fail, and how long its fold takes from its clock reading to its write. */
  datatype Terms = Terms(perActor: nat, deadline: nat, badForces: set<nat>, badWaits: set<nat>, lag: nat)

  function RootSerials(rs: seq<Root>): seq<nat> { seq(|rs|, i requires 0 <= i < |rs| => rs[i].serial) }

  function Roots(ts: seq<Target>): seq<Root> { seq(|ts|, i requires 0 <= i < |ts| => ts[i].root) }

  function LineRoots(rs: seq<Report>): seq<Root> { seq(|rs|, i requires 0 <= i < |rs| => rs[i].root) }

  predicate Distinct<T(==)>(s: seq<T>) { forall i, j :: 0 <= i < j < |s| ==> s[i] != s[j] }

  // ----- What a line says

  /** No event is about `i`. */
  predicate Fresh(log: seq<Deed>, i: nat) { forall k :: 0 <= k < |log| ==> log[k].i != i }

  predicate AllFresh(log: seq<Deed>, rs: seq<Root>, n: nat) { forall k :: n <= k < |rs| ==> Fresh(log, rs[k].serial) }

  /** Every event since is about one of `serials`. */
  predicate About(log: seq<Deed>, log': seq<Deed>, serials: seq<nat>) {
    log <= log' && forall k :: |log| <= k < |log'| ==> log'[k].i in serials
  }

  lemma OthersUntouched(log: seq<Deed>, log': seq<Deed>, serials: seq<nat>, i: nat)
    requires About(log, log', serials) && i !in serials
    ensures i in Accepted(log) <==> i in Accepted(log')
    ensures Fresh(log, i) ==> Fresh(log', i)
  {
    if i in Accepted(log) {
      var k :| 0 <= k < |log| && log[k].Killing? && log[k].took && log[k].i == i;
      assert log'[k] == log[k];
    }
    if i in Accepted(log') {
      var k :| 0 <= k < |log'| && log'[k].Killing? && log'[k].took && log'[k].i == i;
      assert log[k] == log'[k];
    }
    if Fresh(log, i) {
      forall k | 0 <= k < |log'| ensures log'[k].i != i {
        assert k < |log| ==> log'[k] == log[k];
      }
    }
  }

  lemma FreshNotAccepted(log: seq<Deed>, i: nat)
    requires Fresh(log, i)
    ensures i !in Accepted(log)
  {
  }

  predicate KillAt(log: seq<Deed>, k: nat, root: Root) {
    k < |log| && log[k].Killing? && log[k].id == root.id && log[k].i == root.serial
  }

  predicate AskedAt(log: seq<Deed>, k: nat, root: Root) {
    k < |log| && log[k].Asked? && log[k].id == root.id && log[k].i == root.serial && log[k].reason == ParentRequest
  }

  /** A ladder gave up on the root: the stop, the `Kill` and the abort one after another, each with its whole wait or
      up to the deadline, and its plane still read as running. */
  predicate LadderAt(log: seq<Deed>, n: nat, terms: Terms, root: Root) {
    && n + 3 < |log| && AskedAt(log, n, root) && KillAt(log, n + 1, root) && log[n + 2].Ending? && log[n + 3].Running?
    && log[n + 2].i == log[n + 3].i == root.serial && log[n + 2].found == (root.id in log[n + 2].at.tasks)
    && log[n].at.now + Min(terms.perActor, FAR_FUTURE) <= log[n + 1].at.now
    && log[n + 1].at.now + Min(root.grace, FAR_FUTURE) <= log[n + 2].at.now
    && Min(terms.deadline, log[n + 2].at.now + ABORT_SETTLE) <= log[n + 3].at.now
  }

  /** A force gave up on it, after the `Kill` it tried at `k`. */
  ghost predicate ForceAt(log: seq<Deed>, k: nat, root: Root) {
    KillAt(log, k, root) && GaveUp(log, log[k].at.now, root.serial, root.grace, root.id in log[k].at.tasks)
  }

  /** Its plane read as running at `n`, after a `Kill` was tried at `k`. */
  predicate RunningAt(log: seq<Deed>, k: nat, n: nat, root: Root) {
    KillAt(log, k, root) && k < n < |log| && log[n].Running? && log[n].i == root.serial
  }

  ghost predicate ForceUnanswered(log: seq<Deed>, terms: Terms, root: Root) {
    || (exists k: nat :: ForceAt(log, k, root))
    || (root.serial in terms.badForces && exists k: nat, n: nat :: RunningAt(log, k, n, root))
  }

  ghost predicate Unanswered(log: seq<Deed>, terms: Terms, root: Root) {
    (exists n: nat :: LadderAt(log, n, terms, root)) || ForceUnanswered(log, terms, root)
  }

  /** What a root's outcome says of the incarnation. */
  ghost predicate Honest(e: Env, log: seq<Deed>, terms: Terms, root: Root, outcome: Outcome) {
    match outcome
    case Killed => PlaneOf(e, root.serial).stopped && root.serial in Accepted(log)
    case Graceful => PlaneOf(e, root.serial).stopped && root.serial !in Accepted(log)
    case Aborted => PlaneOf(e, root.serial).closed && !PlaneOf(e, root.serial).stopped
    case Unresponsive => Unanswered(log, terms, root)
  }

  /** The line of a leftover was made at `k`, from its plane and the deadline as they then were. */
  predicate LinedAt(log: seq<Deed>, k: nat, own: nat, root: Root, outcome: Outcome) {
    && k < |log| && log[k].Lined? && log[k].i == root.serial
    && outcome == LeftoverOutcome(log[k].at.plane, root.serial in Accepted(log), Gate.Lower(HeldAt(log[k].at), own))
  }

  /** What a leftover's outcome says, `own` being the sweep's deadline. */
  ghost predicate HonestLeftover(e: Env, log: seq<Deed>, terms: Terms, own: nat, root: Root, outcome: Outcome) {
    if outcome == Unresponsive then ForceUnanswered(log, terms, root)
    else
      && (exists k: nat :: LinedAt(log, k, own, root, outcome))
      && PlaneOf(e, root.serial).stopped == (outcome != Aborted)
      && (outcome == Aborted ==> PlaneOf(e, root.serial).closed)
  }

  lemma GaveUpStays(log: seq<Deed>, log': seq<Deed>, start: nat, i: nat, grace: nat, attached: bool)
    requires log <= log' && GaveUp(log, start, i, grace, attached)
    ensures GaveUp(log', start, i, grace, attached)
  {
    var m: nat, k: nat :| GaveUpAt(log, start, i, grace, attached, m, k);
    assert GaveUpAt(log', start, i, grace, attached, m, k);
  }

  lemma ForceStays(log: seq<Deed>, log': seq<Deed>, terms: Terms, root: Root)
    requires log <= log' && ForceUnanswered(log, terms, root)
    ensures ForceUnanswered(log', terms, root)
  {
    if k: nat :| ForceAt(log, k, root) {
      GaveUpStays(log, log', log[k].at.now, root.serial, root.grace, root.id in log[k].at.tasks);
      assert ForceAt(log', k, root);
    } else {
      var k: nat, n: nat :| RunningAt(log, k, n, root);
      assert RunningAt(log', k, n, root);
    }
  }

  lemma UnansweredStays(log: seq<Deed>, log': seq<Deed>, terms: Terms, root: Root)
    requires log <= log' && Unanswered(log, terms, root)
    ensures Unanswered(log', terms, root)
  {
    if n: nat :| LadderAt(log, n, terms, root) {
      assert LadderAt(log', n, terms, root);
    } else {
      ForceStays(log, log', terms, root);
    }
  }

  /** What was honest stays so, as long as no `Kill` of this shutdown comes to the incarnation later. */
  lemma HonestStays(e: Env, log: seq<Deed>, e': Env, log': seq<Deed>, terms: Terms, root: Root, outcome: Outcome)
    requires Later(e, e') && log <= log' && (root.serial in Accepted(log) <==> root.serial in Accepted(log'))
    ensures Honest(e, log, terms, root, outcome) ==> Honest(e', log', terms, root, outcome)
  {
    if Terminal(PlaneOf(e, root.serial)) {
      PlaneStays(e, e', root.serial);
    }
    if Unanswered(log, terms, root) {
      UnansweredStays(log, log', terms, root);
    }
  }

  lemma LeftoverStays(e: Env, log: seq<Deed>, e': Env, log': seq<Deed>, terms: Terms, own: nat, root: Root,
                      outcome: Outcome)
    requires Later(e, e') && log <= log' && (root.serial in Accepted(log) <==> root.serial in Accepted(log'))
    requires HonestLeftover(e, log, terms, own, root, outcome)
    ensures HonestLeftover(e', log', terms, own, root, outcome)
  {
    if outcome == Unresponsive {
      ForceStays(log, log', terms, root);
    } else {
      PlaneStays(e, e', root.serial);
      var k: nat :| LinedAt(log, k, own, root, outcome);
      assert LinedAt(log', k, own, root, outcome);
    }
  }

  /** One line is honest by its own classifier: a root's, or a leftover's against the sweep's deadline. */
  ghost predicate LineOk(e: Env, log: seq<Deed>, terms: Terms, sweep: Option<nat>, r: Report) {
    if sweep.None? then Honest(e, log, terms, r.root, r.outcome)
    else HonestLeftover(e, log, terms, sweep.value, r.root, r.outcome)
  }

  ghost predicate LinesOk(e: Env, log: seq<Deed>, terms: Terms, sweep: Option<nat>, rs: seq<Report>) {
    forall k :: 0 <= k < |rs| ==> LineOk(e, log, terms, sweep, rs[k])
  }

  lemma LinesStay(e: Env, log: seq<Deed>, e': Env, log': seq<Deed>, terms: Terms, sweep: Option<nat>, rs: seq<Report>)
    requires LinesOk(e, log, terms, sweep, rs) && Later(e, e') && log <= log'
    requires forall k :: 0 <= k < |rs| ==> (rs[k].root.serial in Accepted(log) <==> rs[k].root.serial in Accepted(log'))
    ensures LinesOk(e', log', terms, sweep, rs)
  {
    forall k | 0 <= k < |rs| ensures LineOk(e', log', terms, sweep, rs[k]) {
      assert LineOk(e, log, terms, sweep, rs[k]);
      if sweep.None? {
        HonestStays(e, log, e', log', terms, rs[k].root, rs[k].outcome);
      } else {
        LeftoverStays(e, log, e', log', terms, sweep.value, rs[k].root, rs[k].outcome);
      }
    }
  }

  lemma AppendLines(e: Env, log: seq<Deed>, terms: Terms, sweep: Option<nat>, a: seq<Report>, b: seq<Report>)
    requires LinesOk(e, log, terms, sweep, a) && LinesOk(e, log, terms, sweep, b)
    ensures LinesOk(e, log, terms, sweep, a + b)
  {
    forall k | 0 <= k < |a + b| ensures LineOk(e, log, terms, sweep, (a + b)[k]) {
      assert (a + b)[k] == if k < |a| then a[k] else b[k - |a|];
    }
  }

  // ----- The ladder

  datatype Ladder = Ended(outcome: Outcome) | CutOff(raisedKill: bool)

  function TimeLeft(w: World, deadline: nat): nat
    reads w
  {
    Max(0, deadline - w.env.now)
  }

  /** The waits of the ladder: never past the deadline, and the whole of the step's bound or up to the deadline when
      the target does not end. */
  twostate predicate Waited(w: World, serial: nat, bound: nat, deadline: nat, ended: bool)
    reads w
  {
    && w.Ran() && w.env.now <= Max(old(w.env.now), deadline) && w.env.now <= old(w.env.now) + Min(bound, FAR_FUTURE)
    && ended == Terminal(PlaneOf(w.env, serial))
    && (!ended ==> w.env.now == old(w.env.now) + Min(Min(Max(0, deadline - old(w.env.now)), bound), FAR_FUTURE))
  }

  /** A rung's wait, the request being made. */
  method WaitRung(w: World, serial: nat, bound: nat, deadline: nat) returns (ended: bool)
    modifies w`env
    ensures Waited(w, serial, bound, deadline, ended)
  {
    ended := w.WaitTerminal(serial, Min(TimeLeft(w, deadline), bound));
    Waiting(old(w.env), w.log, w.env);
  }

  /** The first rung. The root's lane hears of it at once if the root is registered, and does not forget it. */
  method AskToStop(w: World, root: Root, bound: nat, deadline: nat) returns (ended: bool)
    modifies w
    ensures Waited(w, root.serial, bound, deadline, ended) && Accepted(w.log) == Accepted(old(w.log))
    ensures var v := AskedView(old(w.env), root.id, root.serial, ParentRequest);
            w.log == old(w.log) + [Asked(root.id, root.serial, v, ParentRequest)]
                && LaneLater(v.lane, LaneOf(w.env, root.serial))
    ensures old(w.Holds(root.id, root.serial)) ==> Heard(LaneOf(w.env, root.serial), ParentRequest)
  {
    w.SendStop(root.id, root.serial, ParentRequest);
    ghost var e, log := w.env, w.log;
    ended := WaitRung(w, root.serial, bound, deadline);
    AskedOk(LaneOf(old(w.env), root.serial), ParentRequest);
    LaneStays(e, w.env, root.serial);
    HeardStays(LaneOf(e, root.serial), LaneOf(w.env, root.serial), ParentRequest);
    TrailTrans(old(w.env), old(w.log), e, log, w.env, w.log);
  }

  /** The second rung. A `Kill` is raised if and only if the root is registered and its lane does not refuse it, and
      then it stands. */
  method KillAndWait(w: World, root: Root, deadline: nat) returns (raised: bool, ended: bool)
    modifies w
    ensures Waited(w, root.serial, root.grace, deadline, ended)
    ensures Accepted(w.log) == Accepted(old(w.log)) + (if raised then {root.serial} else {})
    ensures raised ==> old(w.Holds(root.id, root.serial)) && HoldsKill(LaneOf(w.env, root.serial))
    ensures old(w.Holds(root.id, root.serial)) && !raised ==> Refuses(LaneOf(w.env, root.serial), Kill)
    ensures exists v: View ::
              w.log == old(w.log) + [Killing(root.id, root.serial, v, raised)] && v.now == old(w.env.now)
  {
    raised := w.RaiseKill(root.id, root.serial);
    ghost var e, log := w.env, w.log;
    ended := WaitRung(w, root.serial, root.grace, deadline);
    LaneStays(e, w.env, root.serial);
    TrailTrans(old(w.env), old(w.log), e, log, w.env, w.log);
  }

  /** The last rung. A task found attached that has not finished has its abort recorded; a plane that does not end is
      given up on. */
  method AbortAndWait(w: World, root: Root, deadline: nat) returns (ended: bool)
    modifies w
    ensures Waited(w, root.serial, ABORT_SETTLE, deadline, ended) && Accepted(w.log) == Accepted(old(w.log))
    ensures var found := old(w.HasTask(root.id, root.serial));
            && (found && root.serial !in old(w.env.finished) ==> RecordOf(w.env, root.serial).at.Some?)
            && exists v: View ::
                 && v.now == old(w.env.now) && found == (root.id in v.tasks)
                 && w.log == old(w.log) + [Ending(root.serial, v, found)]
                             + (if ended then [] else [Running(root.serial, ViewOf(w.env, root.serial))])
  {
    w.AbortById(root.id, root.serial);
    ghost var e, log := w.env, w.log;
    ended := WaitRung(w, root.serial, ABORT_SETTLE, deadline);
    RecordStays(e, w.env, root.serial);
    TrailTrans(old(w.env), old(w.log), e, log, w.env, w.log);
    if !ended {
      ghost var e', log' := w.env, w.log;
      w.GiveUpOn(root.serial);
      TrailTrans(old(w.env), old(w.log), e', log', w.env, w.log);
    }
  }

  /** The longest a ladder can take. */
  function LadderBound(terms: Terms, root: Root): nat {
    Min(terms.perActor, FAR_FUTURE) + Min(root.grace, FAR_FUTURE) + ABORT_SETTLE
  }

  /** Each request comes exactly as long after the one before as that one is given, and before the deadline; a root is
      given up on the settle time after its abort, or at the deadline. */
  predicate LadderTimes(log: seq<Deed>, from: nat, to: nat, terms: Terms, root: Root)
    requires from < to <= from + 4 && to <= |log|
  {
    && (from + 1 < to ==>
          log[from + 1].at.now == log[from].at.now + Min(terms.perActor, FAR_FUTURE) < terms.deadline)
    && (from + 2 < to ==>
          log[from + 2].at.now == log[from + 1].at.now + Min(root.grace, FAR_FUTURE) < terms.deadline)
    && (from + 3 < to ==> log[from + 3].at.now == Min(log[from + 2].at.now + ABORT_SETTLE, terms.deadline))
  }

  /** A ladder is cut while it waits on the stop or on the `Kill`, and only when the deadline comes first. */
  predicate CutAt(log: seq<Deed>, from: nat, to: nat, terms: Terms, root: Root) {
    && from < to <= from + 2 && to <= |log|
    && terms.deadline <=
       log[to - 1].at.now + Min(if to == from + 1 then terms.perActor else root.grace, FAR_FUTURE)
  }

  /** The requests of one root's ladder, in their order and at their times: the stop, then the `Kill`, then the abort,
      and none skipped. */
  predicate LadderLog(log: seq<Deed>, from: nat, to: nat, terms: Terms, root: Root) {
    && from < to <= from + 4 && to <= |log| && AskedAt(log, from, root)
    && (from + 1 < to ==> KillAt(log, from + 1, root))
    && (from + 2 < to ==> log[from + 2].Ending?) && (from + 3 < to ==> log[from + 3].Running?)
    && LadderTimes(log, from, to, terms, root)
    && forall k :: from <= k < to ==> log[k].i == root.serial
  }

  /** What a ladder comes to whose first request is at `n`. */
  ghost predicate LadderEnd(e: Env, log: seq<Deed>, n: nat, terms: Terms, root: Root, r: Ladder) {
    && LadderLog(log, n, |log|, terms, root) && e.now <= log[n].at.now + LadderBound(terms, root)
    && (r.Ended? ==> Honest(e, log, terms, root, r.outcome))
    && (r.Ended? ==> (r.outcome == Unresponsive <==> |log| == n + 4))
    && (r.CutOff? ==> CutAt(log, n, |log|, terms, root) && e.now == Max(log[n].at.now, terms.deadline))
    && (r.CutOff? ==> r.raisedKill == (root.serial in Accepted(log)))
  }

  /** The second half of a ladder, from the `Kill` on. */
  method Escalate(w: World, terms: Terms, root: Root) returns (r: Ladder)
    requires w.log != [] && LadderLog(w.log, |w.log| - 1, |w.log|, terms, root) && root.serial !in Accepted(w.log)
    requires w.log[|w.log| - 1].at.now + Min(terms.perActor, FAR_FUTURE) == w.env.now < terms.deadline
    modifies w
    ensures w.Ran() && w.env.now <= terms.deadline && |old(w.log)| < |w.log|
    ensures LadderEnd(w.env, w.log, |old(w.log)| - 1, terms, root, r)
  {
    hide Later, Between, HoldsKill, Refuses;
    ghost var n := |w.log| - 1;
    var raised, ended := KillAndWait(w, root, terms.deadline);
    var requested := if raised then Killed else Outcome.Graceful;
    if ended {
      return Ended(TerminalOutcome(PlaneOf(w.env, root.serial), requested));
    }
    if w.env.now >= terms.deadline {
      return CutOff(raised);
    }
    ghost var e, log := w.env, w.log;
    ended := AbortAndWait(w, root, terms.deadline);
    TrailTrans(old(w.env), old(w.log), e, log, w.env, w.log);
    assert LadderLog(w.log, n, |w.log|, terms, root);
    if !ended {
      assert LadderAt(w.log, n, terms, root);
    }
    r := Ended(if ended then TerminalOutcome(PlaneOf(w.env, root.serial), requested) else Unresponsive);
  }

  /** One root's ladder: a stop request, a `Kill`, an abort, each wait bounded by what is left of the global
      deadline. Each request comes as long after the one before as that one is given, so the ladder takes no longer
      than its bound. It never runs past the deadline; it is cut exactly at it, saying whether its `Kill` was taken; and
      a root is given up on only after all three and their waits. A root registered at its start is asked at once and
      has heard of it at the end; whatever else the ladder did shows too. */
  method StopRootSequential(w: World, terms: Terms, root: Root) returns (r: Ladder)
    requires Fresh(w.log, root.serial)
    modifies w
    ensures w.Ran() && w.env.now <= Max(old(w.env.now), terms.deadline)
    ensures w.env.now <= old(w.env.now) + LadderBound(terms, root)
    ensures LadderEnd(w.env, w.log, |old(w.log)|, terms, root, r) && AllShown(w.env, old(w.log), w.log)
    ensures w.log[|old(w.log)|].at == AskedView(old(w.env), root.id, root.serial, ParentRequest)
    ensures old(w.Holds(root.id, root.serial)) ==> Heard(LaneOf(w.env, root.serial), ParentRequest)
    ensures r == CutOff(true) ==> HoldsKill(LaneOf(w.env, root.serial))
  {
    hide Later, Between;
    FreshNotAccepted(w.log, root.serial);
    var ended := AskToStop(w, root, terms.perActor, terms.deadline);
    ghost var e, log := w.env, w.log;
    if ended {
      r := Ended(TerminalOutcome(PlaneOf(w.env, root.serial), Outcome.Graceful));
    } else if w.env.now >= terms.deadline {
      r := CutOff(false);
    } else {
      r := Escalate(w, terms, root);
      TrailTrans(old(w.env), old(w.log), e, log, w.env, w.log);
      LaneStays(e, w.env, root.serial);
      HeardStays(LaneOf(e, root.serial), LaneOf(w.env, root.serial), ParentRequest);
    }
    TrailShown(old(w.env), old(w.log), w.env, w.log);
  }
}
