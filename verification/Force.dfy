/** The concurrent force: one task for each target, all at once, joined as they end. */
module Force {
  import opened Base
  import Gate
  import opened Lane
  import opened AbortRecord
  import opened Verdict
  import opened World
  import opened Walk

  /** A force task waits out its grace, and then for its end or the floor, from the abort it tried at `since`. */
  datatype Stage = Grace | Settling(since: nat)

  /** One force task: its target, whether it has a task to abort, what a published `Stopped` reads as, and whether
      this shutdown's `Kill` was taken. */
  datatype Task = Task(root: Root, attached: bool, requested: Outcome, raised: bool, stage: Stage)

  /** A force task that has ended, with its result unless it failed. */
  datatype Done = Done(task: Task, result: Option<Outcome>)

  function TaskRoots(ts: seq<Task>): seq<Root> { seq(|ts|, k requires 0 <= k < |ts| => ts[k].root) }

  function DoneRoots(ds: seq<Done>): seq<Root> { seq(|ds|, k requires 0 <= k < |ds| => ds[k].task.root) }

  /** The latest a task started at `start` sleeps to. */
  function Wake(t: Task, start: nat): nat {
    if t.stage.Grace? then start + Min(t.root.grace, FAR_FUTURE) else start + ForceBound(t.root.grace)
  }

  predicate EndingAt(log: seq<Deed>, m: nat, t: Task) {
    && m < |log| && log[m].Ending? && log[m].i == t.root.serial
    && t.stage.Settling? && log[m].at.now == t.stage.since && log[m].found == t.attached
  }

  predicate TriedAt(log: seq<Deed>, k: nat, start: nat, root: Root, attached: bool) {
    KillAt(log, k, root) && log[k].at.now <= start && (root.id in log[k].at.tasks) == attached
  }

  /** A `Kill` was tried on the target by `start`, and the task's abort handle read with it. */
  ghost predicate KillTried(log: seq<Deed>, start: nat, t: Task) {
    exists k: nat :: TriedAt(log, k, start, t.root, t.attached)
  }

  predicate Flagged(log: seq<Deed>, t: Task) {
    t.raised == (t.root.serial in Accepted(log)) && t.requested == if t.raised then Killed else Outcome.Graceful
  }

  /** A running task: its target's `Kill` tried, its flag right, and past its grace its abort tried. */
  ghost predicate TaskOk(log: seq<Deed>, start: nat, t: Task) {
    && Flagged(log, t) && KillTried(log, start, t)
    && (t.stage.Settling? ==>
          t.stage.since == start + Min(t.root.grace, FAR_FUTURE) && exists m: nat :: EndingAt(log, m, t))
  }

  /** An ended task: a result is what its plane read as, and it failed only if it is one of those that do. */
  ghost predicate DoneOk(e: Env, log: seq<Deed>, start: nat, terms: Terms, d: Done) {
    && Flagged(log, d.task) && KillTried(log, start, d.task)
    && (d.result.None? ==> d.task.root.serial in terms.badForces)
    && (d.result == Some(Unresponsive) ==> GaveUp(log, start, d.task.root.serial, d.task.root.grace, d.task.attached))
    && (d.result.Some? && d.result.value != Unresponsive ==>
          && Terminal(PlaneOf(e, d.task.root.serial))
          && d.result.value == TerminalOutcome(PlaneOf(e, d.task.root.serial), d.task.requested))
  }

  lemma KillTriedStays(log: seq<Deed>, log': seq<Deed>, start: nat, t: Task)
    requires log <= log' && KillTried(log, start, t)
    ensures KillTried(log', start, t)
  {
    var k: nat :| TriedAt(log, k, start, t.root, t.attached);
    assert TriedAt(log', k, start, t.root, t.attached);
  }

  lemma TaskStays(log: seq<Deed>, log': seq<Deed>, start: nat, t: Task)
    requires log <= log' && Accepted(log) == Accepted(log') && TaskOk(log, start, t)
    ensures TaskOk(log', start, t)
  {
    KillTriedStays(log, log', start, t);
    if t.stage.Settling? {
      var m: nat :| EndingAt(log, m, t);
      assert EndingAt(log', m, t);
    }
  }

  lemma DoneStays(e: Env, log: seq<Deed>, e': Env, log': seq<Deed>, start: nat, terms: Terms, d: Done)
    requires Later(e, e') && log <= log' && Accepted(log) == Accepted(log') && DoneOk(e, log, start, terms, d)
    ensures DoneOk(e', log', start, terms, d)
  {
    KillTriedStays(log, log', start, d.task);
    if Terminal(PlaneOf(e, d.task.root.serial)) {
      PlaneStays(e, e', d.task.root.serial);
    }
    if d.result == Some(Unresponsive) {
      GaveUpStays(log, log', start, d.task.root.serial, d.task.root.grace, d.task.attached);
    }
  }

  /** A force that gave up on its target, told of the `Kill` it followed. */
  lemma GaveUpAfterKill(log: seq<Deed>, start: nat, terms: Terms, t: Task)
    requires KillTried(log, start, t) && GaveUp(log, start, t.root.serial, t.root.grace, t.attached)
    ensures ForceUnanswered(log, terms, t.root)
  {
    var k: nat :| TriedAt(log, k, start, t.root, t.attached);
    var m: nat, n: nat :| GaveUpAt(log, start, t.root.serial, t.root.grace, t.attached, m, n);
    assert GaveUpAt(log, log[k].at.now, t.root.serial, t.root.grace, t.attached, m, n);
    assert ForceAt(log, k, t.root);
  }

  // ----- A task by itself

  predicate Marked(t: Target, log: seq<Deed>) { t.killRaised == (t.root.serial in Accepted(log)) }

  /** Looks the target up as the incarnation its snapshot kept, raises `Kill` on it if it is there, reads its abort
      handle, and fixes what its task will report. The `Kill` stands when it is taken; a target that was there and
      did not take it refuses it. */
  method StartForce(w: World, t: Target) returns (task: Task)
    requires Marked(t, w.log)
    modifies w
    ensures w.Ran() && w.env.now == old(w.env.now)
    ensures |w.log| == |old(w.log)| + 1 && KillAt(w.log, |old(w.log)|, t.root)
    ensures w.log[|old(w.log)|].at.now == w.env.now && task.raised == (w.log[|old(w.log)|].took || t.killRaised)
    ensures Accepted(w.log) == Accepted(old(w.log)) + (if w.log[|old(w.log)|].took then {t.root.serial} else {})
    ensures var took := w.log[|old(w.log)|].took;
            && (took ==> old(w.Holds(t.root.id, t.root.serial)) && HoldsKill(LaneOf(w.env, t.root.serial)))
            && (old(w.Holds(t.root.id, t.root.serial)) && !took ==> Refuses(LaneOf(w.env, t.root.serial), Kill))
    ensures task.root == t.root && task.stage == Grace && Flagged(w.log, task)
    ensures task.attached == w.HasTask(t.root.id, t.root.serial) == (t.root.id in w.log[|old(w.log)|].at.tasks)
  {
    var took := w.RaiseKill(t.root.id, t.root.serial);
    var raised := took || t.killRaised;
    var attached := w.HasTask(t.root.id, t.root.serial);
    task := Task(t.root, attached, if raised then Killed else Outcome.Graceful, raised, Grace);
  }

  /** The task run by itself: a forced stop. */
  method RunForce(w: World, t: Task, ghost terms: Terms) returns (d: Done)
    requires t.stage == Grace && TaskOk(w.log, w.env.now, t)
    modifies w
    ensures w.Ran() && d.task == t && d.result.Some?
    ensures ForceResult(w.env, w.log, old(w.env.now), t.root.serial, t.root.grace, t.attached, t.requested,
                        d.result.value)
    ensures DoneOk(w.env, w.log, old(w.env.now), terms, d) && w.env.now <= old(w.env.now) + ForceBound(t.root.grace)
  {
    var outcome := w.ForceStop(t.root.serial, t.attached, t.root.grace, t.requested);
    KillTriedStays(old(w.log), w.log, old(w.env.now), t);
    d := Done(t, Some(outcome));
  }

  /** What a task that is awake does next: it goes on to its next stage, or it ends. */
  datatype Step = Goes(task: Task) | Ends(done: Done)

  /** The task wakes: its target has ended, or its grace or its floor has passed. */
  predicate Awake(e: Env, t: Task, start: nat) {
    || Terminal(PlaneOf(e, t.root.serial))
    || (t.stage.Grace? && Wake(t, start) <= e.now)
    || (t.stage.Settling? && ForceFloor(t.stage.since, t.root.grace, RecordOf(e, t.root.serial)) <= e.now)
  }

  /** A task at its latest is awake: the floor is never past it. */
  lemma AwakeAtLast(e: Env, log: seq<Deed>, t: Task, start: nat)
    requires TaskOk(log, start, t) && Wake(t, start) <= e.now
    ensures Awake(e, t, start)
  {
    if t.stage.Settling? {
      FloorBounds(SaturatingDeadline(t.stage.since, ABORT_SETTLE), Min(t.root.grace + ABORT_SETTLE, FAR_FUTURE),
                  RecordOf(e, t.root.serial));
    }
  }

  /** What a step of the task of `root` comes to. An end is the end of a forced stop. */
  ghost predicate StepOk(e: Env, log: seq<Deed>, start: nat, terms: Terms, t: Task, s: Step) {
    match s
    case Goes(task) =>
      task == t.(stage := task.stage) && TaskOk(log, start, task) && e.now <= Wake(task, start) && t.stage.Grace?
          && task.stage.Settling?
    case Ends(d) =>
      && d.task == t && DoneOk(e, log, start, terms, d)
      && (d.result.Some? ==> ForceResult(e, log, start, t.root.serial, t.root.grace, t.attached, t.requested,
                                         d.result.value))
  }

  /** The grace is over: the end is read, or the abort is tried. */
  method StepGrace(w: World, t: Task, start: nat, ghost terms: Terms) returns (s: Step)
    requires t.stage == Grace && TaskOk(w.log, start, t) && Awake(w.env, t, start) && w.env.now <= Wake(t, start)
    modifies w
    ensures w.Ran() && w.env.now == old(w.env.now) && Accepted(w.log) == Accepted(old(w.log))
    ensures About(old(w.log), w.log, [t.root.serial]) && StepOk(w.env, w.log, start, terms, t, s)
  {
    var p := PlaneOf(w.env, t.root.serial);
    LaterSelf(w.env);
    if Terminal(p) {
      return Ends(Done(t, Some(TerminalOutcome(p, t.requested))));
    }
    w.AbortTask(t.root.serial, t.attached);
    var task := t.(stage := Settling(w.env.now));
    KillTriedStays(old(w.log), w.log, start, t);
    assert EndingAt(w.log, |old(w.log)|, task);
    s := Goes(task);
  }

  /** The end is read, or the floor has passed and the target is given up on. */
  method StepSettle(w: World, t: Task, start: nat, ghost terms: Terms) returns (s: Step)
    requires t.stage.Settling? && TaskOk(w.log, start, t) && Awake(w.env, t, start)
    modifies w
    ensures w.Ran() && w.env == old(w.env) && Accepted(w.log) == Accepted(old(w.log))
    ensures About(old(w.log), w.log, [t.root.serial]) && StepOk(w.env, w.log, start, terms, t, s)
  {
    var p := PlaneOf(w.env, t.root.serial);
    LaterSelf(w.env);
    if Terminal(p) {
      return Ends(Done(t, Some(TerminalOutcome(p, t.requested))));
    }
    w.GiveUpOn(t.root.serial);
    KillTriedStays(old(w.log), w.log, start, t);
    ghost var m: nat :| EndingAt(old(w.log), m, t);
    assert GaveUpAt(w.log, start, t.root.serial, t.root.grace, t.attached, m, |old(w.log)|);
    s := Ends(Done(t, Some(Unresponsive)));
  }

  /** An ended force task is joined: its result is reported, or its target is read from its plane if it failed. A
      leftover that is terminal goes through the leftovers' classifier either way. */
  method JoinForce(w: World, d: Done, ghost start: nat, ghost terms: Terms, sweep: Option<nat>) returns (report: Report)
    requires DoneOk(w.env, w.log, start, terms, d)
    modifies w
    ensures w.Ran() && w.env.now == old(w.env.now) && Accepted(w.log) == Accepted(old(w.log))
    ensures About(old(w.log), w.log, [d.task.root.serial])
    ensures report.root == d.task.root && LineOk(w.env, w.log, terms, sweep, report)
    ensures d.result.None? && old(Terminal(PlaneOf(w.env, d.task.root.serial))) ==> report.outcome != Unresponsive
  {
    hide Later, Between;
    w.Elapse(0);
    ghost var e := w.env;
    RecordStays(old(w.env), e, d.task.root.serial);
    LaterSelf(e);
    Waiting(old(w.env), w.log, e);
    DoneStays(old(w.env), w.log, e, w.log, start, terms, d);
    var i := d.task.root.serial;
    var p := PlaneOf(w.env, i);
    var terminal := if d.result.Some? then d.result.value != Unresponsive else Terminal(p);
    var outcome :=
      if !terminal then Unresponsive
      else if sweep.Some? then LeftoverOutcome(p, d.task.raised, Gate.Lower(Held(w.env), sweep.value))
      else if d.result.Some? then d.result.value
      else TerminalOutcome(p, d.task.requested);
    report := Line(d.task.root, outcome);
    if !terminal && d.result.None? {
      w.GiveUpOn(i);
      ghost var k: nat :| TriedAt(old(w.log), k, start, d.task.root, d.task.attached);
      assert RunningAt(w.log, k, |old(w.log)|, d.task.root);
    } else if !terminal {
      GaveUpAfterKill(w.log, start, terms, d.task);
    } else if sweep.Some? {
      w.MakeLine(i);
      assert LinedAt(w.log, |old(w.log)|, sweep.value, d.task.root, outcome);
    }
    TrailTrans(old(w.env), old(w.log), e, old(w.log), w.env, w.log);
    PlaneStaysIf(old(w.env), e, i);
  }

  lemma PlaneStaysIf(a: Env, b: Env, i: nat)
    requires Later(a, b)
    ensures Terminal(PlaneOf(a, i)) ==> Terminal(PlaneOf(b, i))
  {
    if Terminal(PlaneOf(a, i)) {
      PlaneStays(a, b, i);
    }
  }

  // ----- All tasks at once

  /** From `from` on a `Kill` was tried on each of `rs` in their order, all of them at `now`. */
  predicate KilledAt(log: seq<Deed>, from: nat, rs: seq<Root>, now: nat) {
    && from + |rs| <= |log|
    && forall k :: 0 <= k < |rs| ==> KillAt(log, from + k, rs[k]) && log[from + k].at.now == now
  }

  lemma KilledStays(log: seq<Deed>, log': seq<Deed>, from: nat, rs: seq<Root>, now: nat)
    requires KilledAt(log, from, rs, now) && log <= log'
    ensures KilledAt(log', from, rs, now)
  {
    forall k | 0 <= k < |rs| ensures KillAt(log', from + k, rs[k]) && log'[from + k].at.now == now {
      assert KillAt(log, from + k, rs[k]);
    }
  }

  lemma KilledOneMore(log: seq<Deed>, log': seq<Deed>, from: nat, rs: seq<Root>, r: Root, now: nat)
    requires KilledAt(log, from, rs, now) && log <= log' && |log'| == |log| + 1 && |log| == from + |rs|
    requires KillAt(log', |log|, r) && log'[|log|].at.now == now
    ensures KilledAt(log', from, rs + [r], now)
  {
    forall k | 0 <= k < |rs + [r]| ensures KillAt(log', from + k, (rs + [r])[k]) && log'[from + k].at.now == now {
      if k < |rs| {
        assert KillAt(log, from + k, rs[k]);
      }
    }
  }

  /** Every one of `rs` still registered holds a `Kill` or refuses it. */
  predicate AllKillHeard(e: Env, rs: seq<Root>) {
    forall k :: 0 <= k < |rs| && Registers(e, rs[k].id, rs[k].serial) ==> KillHeard(LaneOf(e, rs[k].serial))
  }

  lemma KillsShown(e: Env, log: seq<Deed>, log': seq<Deed>, from: nat, rs: seq<Root>, now: nat)
    requires AllShown(e, log, log') && KilledAt(log', from, rs, now) && |log| <= from
    ensures AllKillHeard(e, rs)
  {
    forall k | 0 <= k < |rs| && Registers(e, rs[k].id, rs[k].serial) ensures KillHeard(LaneOf(e, rs[k].serial)) {
      assert KillAt(log', from + k, rs[k]) && Shown(e, log'[from + k]);
    }
  }

  /** The tasks started so far for `ts`. */
  ghost predicate StartedOk(log: seq<Deed>, start: nat, ts: seq<Target>, tasks: seq<Task>) {
    && |tasks| <= |ts|
    && forall k :: 0 <= k < |tasks| ==>
      tasks[k].root == ts[k].root && tasks[k].stage == Grace && TaskOk(log, start, tasks[k])
  }

  /** Another target's force is started: the flags of the tasks started and of the targets to come stay right. */
  lemma StartedStays(log: seq<Deed>, log': seq<Deed>, start: nat, ts: seq<Target>, tasks: seq<Task>)
    requires StartedOk(log, start, ts, tasks) && |tasks| < |ts| && Distinct(RootSerials(Roots(ts))) && log <= log'
    requires Accepted(log) <= Accepted(log') <= Accepted(log) + {ts[|tasks|].root.serial}
    requires forall k :: |tasks| <= k < |ts| ==> Marked(ts[k], log)
    ensures StartedOk(log', start, ts, tasks)
    ensures forall k :: |tasks| < k < |ts| ==> Marked(ts[k], log')
  {
    var serials := RootSerials(Roots(ts));
    assert forall k :: 0 <= k < |ts| ==> serials[k] == ts[k].root.serial;
    forall k | 0 <= k < |tasks| ensures TaskOk(log', start, tasks[k]) {
      assert TaskOk(log, start, tasks[k]) && serials[k] != serials[|tasks|];
      KillTriedStays(log, log', start, tasks[k]);
    }
    forall k | |tasks| < k < |ts| ensures Marked(ts[k], log') {
      assert Marked(ts[k], log) && serials[|tasks|] != serials[k];
    }
  }

  /** A `Kill` is tried on each target in order, and its task started, at one instant. Every target still registered
      holds a `Kill` then or refuses it. */
  method StartForces(w: World, targets: seq<Target>) returns (tasks: seq<Task>)
    requires Distinct(RootSerials(Roots(targets))) && forall k :: 0 <= k < |targets| ==> Marked(targets[k], w.log)
    modifies w
    ensures w.Ran() && w.env.now == old(w.env.now)
    ensures |tasks| == |targets| && StartedOk(w.log, w.env.now, targets, tasks)
    ensures |w.log| == |old(w.log)| + |targets| && KilledAt(w.log, |old(w.log)|, Roots(targets), old(w.env.now))
    ensures About(old(w.log), w.log, RootSerials(Roots(targets))) && AllShown(w.env, old(w.log), w.log)
    ensures AllKillHeard(w.env, Roots(targets))
  {
    hide Later, Between;
    tasks := [];
    ghost var rs := Roots(targets);
    LaterSelf(w.env);
    for n := 0 to |targets|
      invariant w.Ran() && w.env.now == old(w.env.now)
      invariant |tasks| == n && StartedOk(w.log, w.env.now, targets, tasks)
      invariant forall k :: n <= k < |targets| ==> Marked(targets[k], w.log)
      invariant |w.log| == |old(w.log)| + n && KilledAt(w.log, |old(w.log)|, rs[..n], old(w.env.now))
      invariant About(old(w.log), w.log, RootSerials(rs))
    {
      ghost var e, log := w.env, w.log;
      var task := StartForce(w, targets[n]);
      TrailTrans(old(w.env), old(w.log), e, log, w.env, w.log);
      StartedStays(log, w.log, w.env.now, targets, tasks);
      KilledOneMore(log, w.log, |old(w.log)|, rs[..n], rs[n], old(w.env.now));
      assert rs[..n + 1] == rs[..n] + [rs[n]];
      assert RootSerials(rs)[n] == targets[n].root.serial;
      assert TriedAt(w.log, |log|, w.env.now, task.root, task.attached);
      tasks := tasks + [task];
    }
    assert rs[..|targets|] == rs;
    TrailShown(old(w.env), old(w.log), w.env, w.log);
    KillsShown(w.env, old(w.log), w.log, |old(w.log)|, rs, old(w.env.now));
  }

  /** A force round under way: what is reported, what has ended, what still runs. */
  datatype Round = Round(results: seq<Report>, ended: seq<Done>, running: seq<Task>)

  lemma TakeOne(ts: seq<Root>, n: nat)
    requires n < |ts|
    ensures multiset(ts) == multiset(Without(ts, n)) + multiset{ts[n]}
  {
    assert ts == ts[..n] + [ts[n]] + ts[n + 1..];
  }

  /** The round accounts for all of `rs`. */
  ghost predicate Accounted(rs: seq<Root>, r: Round) {
    multiset(LineRoots(r.results)) + multiset(DoneRoots(r.ended)) + multiset(TaskRoots(r.running)) == multiset(rs)
  }

  lemma OneEnded(rs: seq<Root>, r: Round, n: nat, d: Done)
    requires n < |r.running| && d.task.root == r.running[n].root && Accounted(rs, r)
    ensures Accounted(rs, Round(r.results, r.ended + [d], Without(r.running, n)))
  {
    TakeOne(TaskRoots(r.running), n);
    assert TaskRoots(Without(r.running, n)) == Without(TaskRoots(r.running), n);
    assert DoneRoots(r.ended + [d]) == DoneRoots(r.ended) + [d.task.root];
  }

  lemma OneJoined(rs: seq<Root>, r: Round, n: nat, line: Report)
    requires n < |r.ended| && line.root == r.ended[n].task.root && Accounted(rs, r)
    ensures Accounted(rs, Round(r.results + [line], Without(r.ended, n), r.running))
  {
    TakeOne(DoneRoots(r.ended), n);
    assert DoneRoots(Without(r.ended, n)) == Without(DoneRoots(r.ended), n);
    assert LineRoots(r.results + [line]) == LineRoots(r.results) + [line.root];
  }

  lemma OneWentOn(rs: seq<Root>, r: Round, n: nat, t: Task)
    requires n < |r.running| && t.root == r.running[n].root && Accounted(rs, r)
    ensures Accounted(rs, Round(r.results, r.ended, r.running[n := t]))
  {
    assert TaskRoots(r.running[n := t]) == TaskRoots(r.running);
  }

  ghost predicate EndedOk(e: Env, log: seq<Deed>, start: nat, terms: Terms, ds: seq<Done>) {
    forall k :: 0 <= k < |ds| ==> DoneOk(e, log, start, terms, ds[k])
  }

  /** A running task is never past its latest, and that is within the longest bound. */
  ghost predicate RunsOk(e: Env, log: seq<Deed>, start: nat, longest: nat, t: Task) {
    TaskOk(log, start, t) && e.now <= Wake(t, start) && ForceBound(t.root.grace) <= longest
  }

  ghost predicate RunningOk(e: Env, log: seq<Deed>, start: nat, longest: nat, ts: seq<Task>) {
    forall k :: 0 <= k < |ts| ==> RunsOk(e, log, start, longest, ts[k])
  }

  /** What a round goes by. */
  datatype Frame = Frame(start: nat, longest: nat, terms: Terms, sweep: Option<nat>, rs: seq<Root>)

  ghost predicate RoundOk(e: Env, log: seq<Deed>, f: Frame, r: Round) {
    && f.start <= e.now <= f.start + f.longest && Accounted(f.rs, r)
    && LinesOk(e, log, f.terms, f.sweep, r.results) && EndedOk(e, log, f.start, f.terms, r.ended)
    && RunningOk(e, log, f.start, f.longest, r.running)
  }

  /** The round stands when no clock passes a task's latest and no `Kill` is raised. */
  lemma RoundStays(e: Env, log: seq<Deed>, e': Env, log': seq<Deed>, f: Frame, r: Round)
    requires RoundOk(e, log, f, r) && Later(e, e') && log <= log' && Accepted(log) == Accepted(log')
    requires e'.now <= f.start + f.longest && forall k :: 0 <= k < |r.running| ==> e'.now <= Wake(r.running[k], f.start)
    ensures RoundOk(e', log', f, r)
  {
    LinesStay(e, log, e', log', f.terms, f.sweep, r.results);
    forall k | 0 <= k < |r.ended| ensures DoneOk(e', log', f.start, f.terms, r.ended[k]) {
      DoneStays(e, log, e', log', f.start, f.terms, r.ended[k]);
    }
    forall k | 0 <= k < |r.running| ensures RunsOk(e', log', f.start, f.longest, r.running[k]) {
      assert RunsOk(e, log, f.start, f.longest, r.running[k]);
      TaskStays(log, log', f.start, r.running[k]);
    }
  }

  method Pick(n: nat) returns (k: nat)
    requires n > 0
    ensures k < n
  {
    var any: int := *;
    k := if 0 <= any < n then any else 0;
  }

  /** The task that sleeps the least long. */
  method FirstToWake(ts: seq<Task>, start: nat) returns (m: nat)
    requires ts != []
    ensures m < |ts| && forall k :: 0 <= k < |ts| ==> Wake(ts[m], start) <= Wake(ts[k], start)
  {
    m := 0;
    for n := 1 to |ts|
      invariant m < |ts| && forall k :: 0 <= k < n ==> Wake(ts[m], start) <= Wake(ts[k], start)
    {
      if Wake(ts[n], start) < Wake(ts[m], start) {
        m := n;
      }
    }
  }

  /** The clock moves on, up to when the first task must wake, and one of the tasks that are awake by then, or that
      fails, is next. */
  method WakeOne(w: World, r: Round, f: Frame) returns (n: nat, fails: bool)
    requires r.running != [] && RoundOk(w.env, w.log, f, r)
    modifies w`env
    ensures Onward(old(w.env), w.env) && RoundOk(w.env, w.log, f, r)
    ensures n < |r.running|
    ensures if fails then r.running[n].root.serial in f.terms.badForces else Awake(w.env, r.running[n], f.start)
  {
    var m := FirstToWake(r.running, f.start);
    var limit := Wake(r.running[m], f.start);
    assert RunsOk(w.env, w.log, f.start, f.longest, r.running[m]);
    w.Elapse(Max(0, limit - w.env.now));
    RoundStays(old(w.env), w.log, w.env, w.log, f, r);
    n := Pick(|r.running|);
    var failing: bool := *;
    fails := failing && r.running[n].root.serial in f.terms.badForces;
    if !fails && !Awake(w.env, r.running[n], f.start) {
      ghost var e := w.env;
      w.ElapseUntil(limit);
      LaterTrans(old(w.env), e, w.env);
      RoundStays(e, w.log, w.env, w.log, f, r);
      n := m;
      AwakeAtLast(w.env, w.log, r.running[n], f.start);
    }
  }

  /** A task that is awake, or fails, takes its next step. */
  method StepOne(w: World, t: Task, start: nat, ghost terms: Terms, fails: bool) returns (s: Step)
    requires TaskOk(w.log, start, t) && w.env.now <= Wake(t, start)
    requires if fails then t.root.serial in terms.badForces else Awake(w.env, t, start)
    modifies w
    ensures w.Ran() && w.env.now == old(w.env.now) && Accepted(w.log) == Accepted(old(w.log))
    ensures About(old(w.log), w.log, [t.root.serial]) && StepOk(w.env, w.log, start, terms, t, s)
  {
    if fails {
      LaterSelf(w.env);
      s := Ends(Done(t, None));
    } else if t.stage.Grace? {
      s := StepGrace(w, t, start, terms);
    } else {
      s := StepSettle(w, t, start, terms);
    }
  }

  /** One of the tasks still running goes on or ends. */
  method RunOne(w: World, r: Round, f: Frame) returns (r': Round)
    requires r.running != [] && RoundOk(w.env, w.log, f, r)
    modifies w
    ensures w.Ran() && Accepted(w.log) == Accepted(old(w.log)) && About(old(w.log), w.log, RootSerials(f.rs))
    ensures RoundOk(w.env, w.log, f, r') && Left(r') < Left(r)
  {
    hide Later, Between, StepOk;
    var n, fails := WakeOne(w, r, f);
    ghost var e := w.env;
    Waiting(old(w.env), w.log, e);
    assert RunsOk(w.env, w.log, f.start, f.longest, r.running[n]);
    var s := StepOne(w, r.running[n], f.start, f.terms, fails);
    TrailTrans(old(w.env), old(w.log), e, old(w.log), w.env, w.log);
    RoundStays(e, old(w.log), w.env, w.log, f, r);
    AmongRoots(f.rs, r, n);
    match s
    case Goes(task) =>
      OneWentOn(f.rs, r, n, task);
      OneLess(r.running, n, task);
      r' := Round(r.results, r.ended, r.running[n := task]);
    case Ends(d) =>
      OneEnded(f.rs, r, n, d);
      OneGone(r.running, n);
      r' := Round(r.results, r.ended + [d], Without(r.running, n));
  }

  /** How much a round has left to do. */
  function StepsLeft(ts: seq<Task>): nat {
    if ts == [] then 0 else (if ts[0].stage.Grace? then 3 else 2) + StepsLeft(ts[1..])
  }

  function Left(r: Round): nat { StepsLeft(r.running) + |r.ended| }

  lemma {:induction false} OneLess(ts: seq<Task>, n: nat, t: Task)
    requires n < |ts| && ts[n].stage.Grace? && !t.stage.Grace?
    ensures StepsLeft(ts[n := t]) < StepsLeft(ts)
  {
    if n > 0 {
      OneLess(ts[1..], n - 1, t);
      assert ts[n := t][1..] == ts[1..][n - 1 := t];
    } else {
      assert ts[n := t][1..] == ts[1..];
    }
  }

  lemma {:induction false} OneGone(ts: seq<Task>, n: nat)
    requires n < |ts|
    ensures StepsLeft(Without(ts, n)) + 2 <= StepsLeft(ts)
  {
    if n > 0 {
      OneGone(ts[1..], n - 1);
      assert Without(ts, n)[1..] == Without(ts[1..], n - 1);
    } else {
      assert Without(ts, n) == ts[1..];
    }
  }

  lemma AmongRoots(rs: seq<Root>, r: Round, n: nat)
    requires Accounted(rs, r) && n < |r.running|
    ensures r.running[n].root.serial in RootSerials(rs)
  {
    assert TaskRoots(r.running)[n] in multiset(TaskRoots(r.running));
    assert r.running[n].root in multiset(rs);
    var k :| 0 <= k < |rs| && rs[k] == r.running[n].root;
    assert RootSerials(rs)[k] == r.running[n].root.serial;
  }

  lemma AmongEnded(rs: seq<Root>, r: Round, n: nat)
    requires Accounted(rs, r) && n < |r.ended|
    ensures r.ended[n].task.root.serial in RootSerials(rs)
  {
    assert DoneRoots(r.ended)[n] in multiset(DoneRoots(r.ended));
    assert r.ended[n].task.root in multiset(rs);
    var k :| 0 <= k < |rs| && rs[k] == r.ended[n].task.root;
    assert RootSerials(rs)[k] == r.ended[n].task.root.serial;
  }

  /** One of the tasks that have ended is joined. */
  method JoinOne(w: World, r: Round, f: Frame) returns (r': Round)
    requires r.ended != [] && RoundOk(w.env, w.log, f, r)
    modifies w
    ensures w.Ran() && Accepted(w.log) == Accepted(old(w.log)) && About(old(w.log), w.log, RootSerials(f.rs))
    ensures RoundOk(w.env, w.log, f, r') && Left(r') < Left(r)
  {
    var n := Pick(|r.ended|);
    var line := JoinForce(w, r.ended[n], f.start, f.terms, f.sweep);
    forall k | 0 <= k < |r.running| ensures w.env.now <= Wake(r.running[k], f.start) {
      assert RunsOk(old(w.env), old(w.log), f.start, f.longest, r.running[k]);
    }
    RoundStays(old(w.env), old(w.log), w.env, w.log, f, r);
    AppendLines(w.env, w.log, f.terms, f.sweep, r.results, [line]);
    AmongEnded(f.rs, r, n);
    OneJoined(f.rs, r, n, line);
    r' := Round(r.results + [line], Without(r.ended, n), r.running);
  }

  lemma AboutTrans(log: seq<Deed>, log1: seq<Deed>, log2: seq<Deed>, serials: seq<nat>)
    requires About(log, log1, serials) && About(log1, log2, serials)
    ensures About(log, log2, serials)
  {
    forall k | |log| <= k < |log2| ensures log2[k].i in serials {
      assert k < |log1| ==> log2[k] == log1[k];
    }
  }

  /** The force tasks go on, end and are joined in whatever order; no clock passes the latest any of them sleeps to. */
  method JoinForces(w: World, tasks: seq<Task>, f: Frame) returns (results: seq<Report>)
    requires RoundOk(w.env, w.log, f, Round([], [], tasks))
    modifies w
    ensures w.Ran() && Accepted(w.log) == Accepted(old(w.log)) && About(old(w.log), w.log, RootSerials(f.rs))
    ensures w.env.now <= f.start + f.longest && multiset(LineRoots(results)) == multiset(f.rs)
    ensures LinesOk(w.env, w.log, f.terms, f.sweep, results)
  {
    var r := Round([], [], tasks);
    LaterSelf(w.env);
    while r.running != [] || r.ended != []
      invariant w.Ran() && Accepted(w.log) == Accepted(old(w.log)) && About(old(w.log), w.log, RootSerials(f.rs))
      invariant RoundOk(w.env, w.log, f, r)
      decreases Left(r)
    {
      var join: bool := *;
      ghost var e, log := w.env, w.log;
      if r.running != [] && (r.ended == [] || !join) {
        r := RunOne(w, r, f);
      } else {
        r := JoinOne(w, r, f);
      }
      TrailTrans(old(w.env), old(w.log), e, log, w.env, w.log);
      AboutTrans(old(w.log), log, w.log, RootSerials(f.rs));
    }
    results := r.results;
  }

  /** The longest bound among the targets. */
  function LongestForce(rs: seq<Root>): nat {
    if rs == [] then 0 else Max(ForceBound(rs[0].grace), LongestForce(rs[1..]))
  }

  lemma {:induction false} LongestCovers(rs: seq<Root>, k: nat)
    requires k < |rs|
    ensures ForceBound(rs[k].grace) <= LongestForce(rs)
  {
    if k > 0 {
      LongestCovers(rs[1..], k - 1);
    }
  }

  lemma StartedRound(e: Env, log: seq<Deed>, f: Frame, ts: seq<Target>, tasks: seq<Task>)
    requires StartedOk(log, e.now, ts, tasks) && |tasks| == |ts|
    requires f.start == e.now && f.rs == Roots(ts) && f.longest == LongestForce(f.rs)
    ensures RoundOk(e, log, f, Round([], [], tasks))
  {
    assert TaskRoots(tasks) == f.rs;
    forall k | 0 <= k < |tasks| ensures RunsOk(e, log, f.start, f.longest, tasks[k]) {
      LongestCovers(f.rs, k);
    }
  }

  /** The concurrent force: `Kill`, grace, abort, settle, on all targets at once. A `Kill` is tried on each, every
      target is reported exactly once, honestly, and the round takes no longer than the longest bound among its
      targets. A target still registered at the end holds a `Kill` or refuses it. */
  method ConcurrentForceSweep(w: World, terms: Terms, targets: seq<Target>,
                              sweep: Option<nat>) returns (results: seq<Report>)
    requires Distinct(RootSerials(Roots(targets))) && forall k :: 0 <= k < |targets| ==> Marked(targets[k], w.log)
    modifies w
    ensures w.Ran() && w.env.now <= old(w.env.now) + LongestForce(Roots(targets))
    ensures multiset(LineRoots(results)) == multiset(Roots(targets)) && LinesOk(w.env, w.log, terms, sweep, results)
    ensures KilledAt(w.log, |old(w.log)|, Roots(targets), old(w.env.now))
    ensures About(old(w.log), w.log, RootSerials(Roots(targets)))
    ensures AllShown(w.env, old(w.log), w.log) && AllKillHeard(w.env, Roots(targets))
  {
    hide Later, Between;
    var tasks := StartForces(w, targets);
    ghost var e, log := w.env, w.log;
    var f := Frame(w.env.now, LongestForce(Roots(targets)), terms, sweep, Roots(targets));
    StartedRound(w.env, w.log, f, targets, tasks);
    results := JoinForces(w, tasks, f);
    TrailTrans(old(w.env), old(w.log), e, log, w.env, w.log);
    AboutTrans(old(w.log), log, w.log, RootSerials(f.rs));
    KilledStays(log, w.log, |old(w.log)|, f.rs, f.start);
    TrailShown(old(w.env), old(w.log), w.env, w.log);
    KillsShown(w.env, old(w.log), w.log, |old(w.log)|, f.rs, f.start);
  }
}
