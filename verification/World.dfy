/** What a shutdown walk acts on and waits for: the clock, the status planes, lanes and abort records of the
    incarnations, the registry and the system's sweep deadline. Everything but the walk's own writes changes
    under it whenever it waits. Incarnations go by their registration serial. The sweep deadline is kept in two parts:
    what this walk folded into it, and what other calls did; the one held is the earlier of the two. */
module World {
  import opened Base
  import opened Gate
  import opened Lane
  import opened AbortRecord
  import opened Verdict

  datatype Registered = Registered(serial: nat, isRoot: bool, grace: nat, attached: bool)

  datatype Env = Env(now: nat, planes: map<nat, Plane>, lanes: map<nat, LaneState>, records: map<nat, Record>,
                     finished: set<nat>, registry: map<nat, Registered>, mine: Option<nat>, others: Option<nat>)

  /** The sweep deadline the system holds. */
  function Held(e: Env): Option<nat> { Earlier(e.mine, e.others) }

  function PlaneOf(e: Env, i: nat): Plane { if i in e.planes then e.planes[i] else Plane(false, false, None) }

  function LaneOf(e: Env, i: nat): LaneState { if i in e.lanes then e.lanes[i] else FRESH }

  function RecordOf(e: Env, i: nat): Record { if i in e.records then e.records[i] else BLANK }

  /** A published `Stopped` stays with its instant, and a plane closed without it never gets it. */
  predicate PlaneLater(p: Plane, q: Plane) {
    && (p.stopped ==> q.stopped) && (p.closed ==> q.closed && (q.stopped ==> p.stopped))
    && (p.finalAt.Some? || p.stopped ==> q.finalAt == p.finalAt)
  }

  predicate RegistryOk(m: map<nat, Registered>) {
    forall j, k | j in m && k in m :: m[j].serial == m[k].serial ==> j == k
  }

  /** What may have become of an entry: a task may have been attached to it, nothing else. */
  predicate EntryLater(r: Registered, r': Registered) {
    r'.(attached := r.attached) == r && (r.attached ==> r'.attached)
  }

  /** What may have changed by a later moment of the same shutdown. Nothing registers, and the deadline held only
      falls: the gate sees to both. A lane keeps what it was asked, the first abort recorded stands, and a task that
      has finished stays so. */
  predicate Later(e: Env, e': Env) {
    && e.now <= e'.now && e.finished <= e'.finished
    && (forall i :: i in e.planes ==> i in e'.planes && PlaneLater(e.planes[i], e'.planes[i]))
    && (forall i :: i in e.lanes ==> i in e'.lanes && LaneLater(e.lanes[i], e'.lanes[i]))
    && (forall i :: i in e.records ==>
        i in e'.records && (e.records[i].at.Some? ==> e'.records[i].at == e.records[i].at))
    && (forall k :: k in e'.registry ==> k in e.registry && EntryLater(e.registry[k], e'.registry[k]))
    && Falls(e.mine, e'.mine) && Falls(e.others, e'.others)
  }

  /** ... and the walk folded nothing meanwhile. */
  predicate Onward(e: Env, e': Env) { Later(e, e') && e'.mine == e.mine }

  lemma LaterTrans(a: Env, b: Env, c: Env)
    requires Later(a, b) && Later(b, c)
    ensures Later(a, c)
  {
    forall i | i in a.planes ensures i in c.planes && PlaneLater(a.planes[i], c.planes[i]) {
      assert i in b.planes && PlaneLater(a.planes[i], b.planes[i]) && PlaneLater(b.planes[i], c.planes[i]);
    }
    forall i | i in a.lanes ensures i in c.lanes && LaneLater(a.lanes[i], c.lanes[i]) {
      assert i in b.lanes && LaneLater(a.lanes[i], b.lanes[i]) && LaneLater(b.lanes[i], c.lanes[i]);
    }
    forall k | k in c.registry ensures k in a.registry && EntryLater(a.registry[k], c.registry[k]) {
      assert k in b.registry && EntryLater(a.registry[k], b.registry[k]) && EntryLater(b.registry[k], c.registry[k]);
    }
  }

  /** No two ids come to share a serial. */
  lemma RegistryStays(e: Env, e': Env)
    requires Later(e, e') && RegistryOk(e.registry)
    ensures RegistryOk(e'.registry)
  {
    forall j, k | j in e'.registry && k in e'.registry && e'.registry[j].serial == e'.registry[k].serial
      ensures j == k
    {
      assert EntryLater(e.registry[j], e'.registry[j]) && EntryLater(e.registry[k], e'.registry[k]);
    }
  }

  lemma LaterSelf(e: Env)
    ensures Later(e, e)
  {
  }

  lemma PlaneStays(a: Env, b: Env, i: nat)
    requires Later(a, b) && Terminal(PlaneOf(a, i))
    ensures Terminal(PlaneOf(b, i)) && PlaneOf(b, i).stopped == PlaneOf(a, i).stopped
    ensures PlaneOf(a, i).stopped ==> PlaneOf(b, i).finalAt == PlaneOf(a, i).finalAt
  {
  }

  lemma RecordStays(a: Env, b: Env, i: nat)
    requires Later(a, b)
    ensures a.now <= b.now && (RecordOf(a, i).at.Some? ==> RecordOf(b, i).at == RecordOf(a, i).at)
  {
  }

  lemma LaneStays(a: Env, b: Env, i: nat)
    requires Later(a, b)
    ensures LaneLater(LaneOf(a, i), LaneOf(b, i))
  {
  }

  lemma HeldFalls(a: Env, b: Env)
    requires Later(a, b)
    ensures a.now <= b.now && Falls(Held(a), Held(b))
  {
  }

  // ----- What a walk did, and what it saw

  /** One incarnation at one moment, with the clock and the deadline held: `ids` is where it is registered, `tasks`
      where it is with a task attached. */
  datatype View = View(now: nat, plane: Plane, lane: LaneState, record: Record, finished: bool, mine: Option<nat>,
                       others: Option<nat>, ids: set<nat>, tasks: set<nat>)

  function ViewOf(e: Env, i: nat): View {
    View(e.now, PlaneOf(e, i), LaneOf(e, i), RecordOf(e, i), i in e.finished, e.mine, e.others,
         set k | k in e.registry && e.registry[k].serial == i,
         set k | k in e.registry && e.registry[k].serial == i && e.registry[k].attached)
  }

  function HeldAt(v: View): Option<nat> { Earlier(v.mine, v.others) }

  /** What may have become of it by a later moment: it is registered where it was or no more, and where a task was
      attached to it one still is. */
  predicate ViewLater(a: View, b: View) {
    && a.now <= b.now && PlaneLater(a.plane, b.plane) && (a.record.at.Some? ==> b.record.at == a.record.at)
    && LaneLater(a.lane, b.lane) && (a.finished ==> b.finished) && b.ids <= a.ids && a.tasks * b.ids <= b.tasks
    && Falls(a.mine, b.mine) && Falls(a.others, b.others)
  }

  lemma ViewsLater(e: Env, e': Env, i: nat)
    requires Later(e, e')
    ensures ViewLater(ViewOf(e, i), ViewOf(e', i))
  {
    forall k | k in e'.registry && e'.registry[k].serial == i ensures k in e.registry && e.registry[k].serial == i {
      assert EntryLater(e.registry[k], e'.registry[k]);
    }
  }

  lemma ViewLaterTrans(a: View, b: View, c: View)
    requires ViewLater(a, b) && ViewLater(b, c)
    ensures ViewLater(a, c)
  {
  }

  /** What the walk asked of incarnation `i` under its id, and whether its lane took it; an abort of its task, if it
      had one; that its plane read as running when it was given up on; that its line was made. Each with the
      incarnation as it then was. */
  datatype Deed =
    | Asked(id: nat, i: nat, at: View, reason: StopReason)
    | Killing(id: nat, i: nat, at: View, took: bool)
    | Ending(i: nat, at: View, found: bool)
    | Running(i: nat, at: View)
    | Lined(i: nat, at: View)

  /** What an event says is so at its moment. */
  predicate DeedOk(ev: Deed) {
    match ev
    case Asked(id, _, at, reason) => id in at.ids ==> Heard(at.lane, reason)
    case Killing(id, _, at, took) => if took then HoldsKill(at.lane) else id in at.ids ==> Refuses(at.lane, Kill)
    case Ending(_, at, found) => found && !at.finished ==> at.record.at.Some?
    case Running(_, at) => !at.plane.stopped && !at.plane.closed
    case Lined(_, at) => at.plane.stopped || at.plane.closed
  }

  /** The incarnations whose lane took a `Kill`. */
  function Accepted(log: seq<Deed>): set<nat> {
    set k | 0 <= k < |log| && log[k].Killing? && log[k].took :: log[k].i
  }

  lemma OneMoreDeed(log: seq<Deed>, ev: Deed)
    ensures Accepted(log + [ev]) == Accepted(log) + (if ev.Killing? && ev.took then {ev.i} else {})
  {
    var log' := log + [ev];
    forall i | i in Accepted(log) ensures i in Accepted(log') {
      var k :| 0 <= k < |log| && log[k].Killing? && log[k].took && log[k].i == i;
      assert log'[k] == log[k];
    }
    if ev.Killing? && ev.took {
      assert log'[|log|] == ev;
    }
  }

  lemma LaterLanes(e: Env, e': Env)
    requires e' == e.(lanes := e'.lanes)
    requires forall i :: i in e.lanes ==> i in e'.lanes && LaneLater(e.lanes[i], e'.lanes[i])
    ensures Later(e, e')
  {
  }

  /** A stop request taken or superseded leaves some request standing. */
  lemma AskedOk(l: LaneState, reason: StopReason)
    ensures Heard(TryRaise(l, reason).0, reason)
  {
  }

  /** Registered under `id`, as incarnation `i`. */
  predicate Registers(e: Env, id: nat, i: nat) { id in e.registry && e.registry[id].serial == i }

  /** The incarnation just after a stop is asked of it, which its lane hears of if it is registered under `id`. */
  function AskedView(e: Env, id: nat, i: nat, reason: StopReason): View {
    ViewOf(e, i).(lane := if Registers(e, id, i) then TryRaise(LaneOf(e, i), reason).0 else LaneOf(e, i))
  }

  /** An event between `e` and `e'`; a `Kill` was taken only from one that found its incarnation registered. */
  predicate Between(e: Env, ev: Deed, e': Env) {
    && DeedOk(ev) && ViewLater(ViewOf(e, ev.i), ev.at) && ViewLater(ev.at, ViewOf(e', ev.i))
    && (ev.Killing? && ev.took ==> Registers(e, ev.id, ev.i))
  }

  /** The walk went from `e` to `e'`, and what it logged on the way is so and happened on the way. */
  ghost predicate Trail(e: Env, log: seq<Deed>, e': Env, log': seq<Deed>) {
    && Later(e, e') && log <= log'
    && forall k :: |log| <= k < |log'| ==> Between(e, log'[k], e')
  }

  lemma BetweenWider(a: Env, b: Env, ev: Deed, c: Env, d: Env)
    requires Later(a, b) && Between(b, ev, c) && Later(c, d)
    ensures Between(a, ev, d)
  {
    assert ev.Killing? && ev.took ==> EntryLater(a.registry[ev.id], b.registry[ev.id]);
    ViewsLater(a, b, ev.i);
    ViewsLater(c, d, ev.i);
    hide ViewLater, Later;
    ViewLaterTrans(ViewOf(a, ev.i), ViewOf(b, ev.i), ev.at);
    ViewLaterTrans(ev.at, ViewOf(c, ev.i), ViewOf(d, ev.i));
  }

  /** What a deed did is there to see: a `Kill` taken stands; an incarnation still registered where a `Kill` was
      tried holds one or refuses it, and where a stop was asked has a request standing or refuses it; a task that was
      running when it was aborted has that abort, or an earlier one, in its record. */
  predicate Shown(e: Env, ev: Deed) {
    match ev
    case Asked(id, i, _, reason) => Registers(e, id, i) ==> Heard(LaneOf(e, i), reason)
    case Killing(id, i, _, took) =>
      (took ==> HoldsKill(LaneOf(e, i))) && (Registers(e, id, i) ==> KillHeard(LaneOf(e, i)))
    case Ending(i, at, found) => found && !at.finished ==> RecordOf(e, i).at.Some?
    case _ => true
  }

  /** Everything done since `log`. */
  predicate AllShown(e: Env, log: seq<Deed>, log': seq<Deed>) {
    forall k :: |log| <= k < |log'| ==> Shown(e, log'[k])
  }

  lemma DeedShown(e: Env, ev: Deed, e': Env)
    requires Between(e, ev, e')
    ensures Shown(e', ev)
  {
    if ev.Asked? {
      HeardStays(ev.at.lane, LaneOf(e', ev.i), ev.reason);
    } else if ev.Killing? {
      HeardStays(ev.at.lane, LaneOf(e', ev.i), Kill);
    }
  }

  /** Whatever a walk logs shows in the world it leaves, the `Kill`s it says were taken among it. */
  lemma TrailShown(e: Env, log: seq<Deed>, e': Env, log': seq<Deed>)
    requires Trail(e, log, e', log')
    ensures AllShown(e', log, log')
    ensures forall i :: i in Accepted(log') - Accepted(log) ==> HoldsKill(LaneOf(e', i))
  {
    forall k | |log| <= k < |log'| ensures Shown(e', log'[k]) {
      DeedShown(e, log'[k], e');
    }
    forall i | i in Accepted(log') - Accepted(log) ensures HoldsKill(LaneOf(e', i)) {
      var k :| 0 <= k < |log'| && log'[k].Killing? && log'[k].took && log'[k].i == i;
      assert Shown(e', log'[k]);
    }
  }

  lemma TrailTrans(e: Env, log: seq<Deed>, e1: Env, log1: seq<Deed>, e2: Env, log2: seq<Deed>)
    requires Trail(e, log, e1, log1) && Trail(e1, log1, e2, log2)
    ensures Trail(e, log, e2, log2)
  {
    LaterTrans(e, e1, e2);
    forall k | |log| <= k < |log2| ensures Between(e, log2[k], e2) {
      if k < |log1| {
        assert log2[k] == log1[k];
        LaterSelf(e);
        BetweenWider(e, e, log2[k], e1, e2);
      } else {
        LaterSelf(e2);
        BetweenWider(e, e1, log2[k], e2, e2);
      }
    }
  }

  /** A wait logs nothing. */
  lemma Waiting(e: Env, log: seq<Deed>, e': Env)
    requires Later(e, e')
    ensures Trail(e, log, e', log)
  {
  }

  /** One event, logged as it happens. */
  lemma Logged(e: Env, log: seq<Deed>, e': Env, ev: Deed)
    requires Later(e, e') && DeedOk(ev) && ev.at == ViewOf(e', ev.i)
    requires ev.Killing? && ev.took ==> Registers(e, ev.id, ev.i)
    ensures Trail(e, log, e', log + [ev])
  {
    ViewsLater(e, e', ev.i);
  }

  /** The longest a force can take: the grace, the settle time, and that once more with another settle time for an
      abort that is owed and late. */
  function ForceBound(grace: nat): nat { ForceCap(grace) + Min(grace + ABORT_SETTLE, FAR_FUTURE) + ABORT_SETTLE }

  /** When a force has waited its grace and a settle time. */
  function ForceCap(grace: nat): nat { Min(grace, FAR_FUTURE) + ABORT_SETTLE }

  /** The floor of a force's verdict, for an abort tried at `since`. */
  function ForceFloor(since: nat, grace: nat, r: Record): nat {
    VerdictFloor(SaturatingDeadline(since, ABORT_SETTLE), Min(grace + ABORT_SETTLE, FAR_FUTURE), r)
  }

  /** A force begun at `start` gave up on `i`: its grace over it aborted the task, if one was attached, at `m`, and at
      `k` the plane still read as running, not before the floor of the record as it then stood. */
  predicate GaveUpAt(log: seq<Deed>, start: nat, i: nat, grace: nat, attached: bool, m: nat, k: nat) {
    && m < k < |log| && log[m].Ending? && log[k].Running? && log[m].i == log[k].i == i
    && log[m].found == attached && start + Min(grace, FAR_FUTURE) <= log[m].at.now
    && ForceFloor(log[m].at.now, grace, log[k].at.record) <= log[k].at.now
  }

  ghost predicate GaveUp(log: seq<Deed>, start: nat, i: nat, grace: nat, attached: bool) {
    exists m: nat, k: nat :: GaveUpAt(log, start, i, grace, attached, m, k)
  }

  /** What a forced stop of `i` begun at `start` comes to, at the moment it ends: what the plane reads as; and it is
      given up on only as above. */
  ghost predicate ForceResult(e: Env, log: seq<Deed>, start: nat, i: nat, grace: nat, attached: bool,
                              requested: Outcome,
                              outcome: Outcome) {
    && (outcome == Unresponsive ==> GaveUp(log, start, i, grace, attached))
    && var p := PlaneOf(e, i);
       outcome == if p.stopped then requested else if p.closed then Aborted else Unresponsive
  }

  class World {
    var env: Env
    /** What this shutdown did and saw, in order. */
    ghost var log: seq<Deed>

    constructor (e: Env)
      requires RegistryOk(e.registry)
      ensures env == e && log == []
    {
      env, log := e, [];
    }

    /** Since the old state the walk went on from there. */
    twostate predicate Ran()
      reads this
    {
      Trail(old(env), old(log), env, log) && env.mine == old(env.mine)
    }

    /** ... and it may have folded its deadline. */
    twostate predicate RanAndFolded()
      reads this
    {
      Trail(old(env), old(log), env, log)
    }

    /** Up to `bound` of time passes and everything may change meanwhile. */
    method Elapse(bound: nat)
      modifies this`env
      ensures Onward(old(env), env) && env.now <= old(env.now) + bound
    {
      var next: Env := *;
      if Onward(env, next) && next.now <= env.now + bound {
        env := next;
      }
    }

    /** At least until `until` passes, and no longer if that is ahead. */
    method ElapseUntil(until: nat)
      modifies this`env
      ensures Onward(old(env), env) && env.now == Max(old(env.now), until)
    {
      Elapse(Max(0, until - env.now));
      if env.now < until {
        env := env.(now := until);
      }
    }

    /** Waits up to `bound` for the plane of `i` to become terminal. */
    method WaitTerminal(i: nat, bound: nat) returns (ended: bool)
      modifies this`env
      ensures Onward(old(env), env)
      ensures ended == (PlaneOf(env, i).stopped || PlaneOf(env, i).closed)
      ensures env.now <= old(env.now) + Min(bound, FAR_FUTURE)
      ensures !ended ==> env.now == old(env.now) + Min(bound, FAR_FUTURE)
      ensures old(Terminal(PlaneOf(env, i))) ==> env == old(env)
    {
      if Terminal(PlaneOf(env, i)) {
        return true;
      }
      var end := env.now + Min(bound, FAR_FUTURE);
      Elapse(Min(bound, FAR_FUTURE));
      ended := Terminal(PlaneOf(env, i));
      if !ended {
        ghost var mid := env;
        ElapseUntil(end);
        LaterTrans(old(env), mid, env);
        ended := Terminal(PlaneOf(env, i));
      }
    }

    /** The registry holds incarnation `i` under `id`. */
    predicate Holds(id: nat, i: nat)
      reads this
    {
      Registers(env, id, i)
    }

    /** ... and with a task attached. */
    predicate HasTask(id: nat, i: nat)
      reads this
    {
      Holds(id, i) && env.registry[id].attached
    }

    /** Raises `reason` on the lane of `i`. */
    method RaiseOn(i: nat, reason: StopReason) returns (result: RaiseResult)
      modifies this`env
      ensures env == old(env).(lanes := env.lanes) && forall j :: j != i ==> LaneOf(env, j) == LaneOf(old(env), j)
      ensures (LaneOf(env, i), result) == TryRaise(LaneOf(old(env), i), reason) && Onward(old(env), env)
    {
      RaiseIsLater(LaneOf(env, i), reason);
      var (lane, answer) := TryRaise(LaneOf(env, i), reason);
      env := env.(lanes := env.lanes[i := lane]);
      LaterLanes(old(env), env);
      result := answer;
    }

    /** A stop request to the incarnation, if the registry still holds it; no other lane hears of it. */
    method SendStop(id: nat, i: nat, reason: StopReason)
      modifies this
      ensures Ran() && env == old(env).(lanes := env.lanes)
      ensures log == old(log) + [Asked(id, i, ViewOf(env, i), reason)]
          && Accepted(log) == Accepted(old(log))
      ensures ViewOf(env, i) == AskedView(old(env), id, i, reason)
      ensures forall j :: j != i ==> LaneOf(env, j) == LaneOf(old(env), j)
    {
      LaterSelf(env);
      if Holds(id, i) {
        var _ := RaiseOn(i, reason);
      }
      ghost var ev := Asked(id, i, ViewOf(env, i), reason);
      AskedOk(LaneOf(old(env), i), reason);
      Logged(old(env), log, env, ev);
      OneMoreDeed(log, ev);
      log := log + [ev];
    }

    /** A `Kill` to the incarnation: looked up, then raised on the lane found, with anything in between. It is not
        raised when the registry does not hold the incarnation, and not taken when its lane refuses it. */
    method RaiseKill(id: nat, i: nat) returns (took: bool)
      modifies this
      ensures Ran() && env.now == old(env.now) && log == old(log) + [Killing(id, i, ViewOf(env, i), took)]
      ensures took ==> old(Holds(id, i)) && HoldsKill(LaneOf(env, i))
      ensures !took && old(Holds(id, i)) ==> Refuses(LaneOf(env, i), Kill)
      ensures Accepted(log) == Accepted(old(log)) + (if took then {i} else {})
    {
      took := false;
      LaterSelf(env);
      if Holds(id, i) {
        Elapse(0);
        ghost var e := env;
        KillIsRefusedOrStands(LaneOf(env, i));
        var result := RaiseOn(i, Kill);
        LaterTrans(old(env), e, env);
        took := result != RaiseResult.Refused;
      }
      ghost var ev := Killing(id, i, ViewOf(env, i), took);
      Logged(old(env), log, env, ev);
      OneMoreDeed(log, ev);
      log := log + [ev];
    }

    /** An abort of the incarnation's task, through its record, if there is a task to abort: a task that has finished
        gets none. No other record, and nothing else, changes. */
    method AbortTask(i: nat, attached: bool)
      modifies this
      ensures Ran() && env == old(env).(records := env.records)
      ensures log == old(log) + [Ending(i, ViewOf(env, i), attached)] && Accepted(log) == Accepted(old(log))
      ensures forall j :: j != i ==> RecordOf(env, j) == RecordOf(old(env), j)
      ensures RecordOf(env, i) ==
              if attached then Abort(RecordOf(old(env), i), i in env.finished, env.now)
              else RecordOf(old(env), i)
    {
      if attached {
        env := env.(records := env.records[i := Abort(RecordOf(env, i), i in env.finished, env.now)]);
      }
      ghost var ev := Ending(i, ViewOf(env, i), attached);
      Logged(old(env), log, env, ev);
      OneMoreDeed(log, ev);
      log := log + [ev];
    }

    /** An abort of the incarnation's task if the registry still holds it with a task attached. */
    method AbortById(id: nat, i: nat)
      modifies this
      ensures Ran() && env == old(env).(records := env.records)
      ensures var found := old(HasTask(id, i));
              && log == old(log) + [Ending(i, ViewOf(env, i), found)] && Accepted(log) == Accepted(old(log))
              && (forall j :: j != i ==> RecordOf(env, j) == RecordOf(old(env), j))
              && RecordOf(env, i) == (if found then Abort(RecordOf(old(env), i), i in env.finished, env.now)
                                      else RecordOf(old(env), i))
    {
      AbortTask(i, HasTask(id, i));
    }

    /** The plane of `i` is read as running, and that is that. */
    ghost method GiveUpOn(i: nat)
      requires !Terminal(PlaneOf(env, i))
      modifies this`log
      ensures Ran() && log == old(log) + [Running(i, ViewOf(env, i))] && Accepted(log) == Accepted(old(log))
    {
      LaterSelf(env);
      Logged(env, log, env, Running(i, ViewOf(env, i)));
      OneMoreDeed(log, Running(i, ViewOf(env, i)));
      log := log + [Running(i, ViewOf(env, i))];
    }

    /** The line of `i` is made from its plane as it is. */
    ghost method MakeLine(i: nat)
      requires Terminal(PlaneOf(env, i))
      modifies this`log
      ensures Ran() && log == old(log) + [Lined(i, ViewOf(env, i))] && Accepted(log) == Accepted(old(log))
    {
      LaterSelf(env);
      Logged(env, log, env, Lined(i, ViewOf(env, i)));
      OneMoreDeed(log, Lined(i, ViewOf(env, i)));
      log := log + [Lined(i, ViewOf(env, i))];
    }

    /** A sweep's deadline is folded into the system's: the clock is read, and the deadline written up to `lag` later.
        It is not later than the one held, and not before the instant just after the clock read unless the one held
        is. */
    method FoldSweepDeadline(own: nat, lag: nat) returns (folded: nat, ghost mid: Env)
      modifies this`env
      ensures Onward(old(env), mid) && mid.now <= old(env.now) + lag && Later(old(env), env)
      ensures env == mid.(mine := Some(Lower(mid.mine, Max(own, old(env.now) + 1)))) && Held(env) == Some(folded)
      ensures folded <= Max(own, old(env.now) + 1) && Falls(Held(mid), Some(folded))
      ensures folded == Max(own, old(env.now) + 1) || Held(mid) == Some(folded)
    {
      var floor := Floor(own, env.now);
      Elapse(lag);
      mid := env;
      folded := Lower(Held(env), floor);
      env := env.(mine := Some(Lower(env.mine, floor)));
      LaterTrans(old(env), mid, env);
    }

    /** Waits for the plane of `i`, `budget` from now, and on to the verdict floor the abort record sets: read again
        at every wake, since an abort may be recorded or become owed meanwhile. */
    method WaitEndOrFloor(i: nat, budget: nat, cap: nat) returns (ended: bool)
      modifies this`env
      ensures Onward(old(env), env) && ended == (PlaneOf(env, i).stopped || PlaneOf(env, i).closed)
      ensures env.now <= Ceiling(SaturatingDeadline(old(env.now), budget), Min(cap, FAR_FUTURE))
      ensures !ended ==>
                VerdictFloor(SaturatingDeadline(old(env.now), budget), Min(cap, FAR_FUTURE), RecordOf(env, i))
                <= env.now
    {
      hide Later;
      LaterSelf(env);
      var budgetAt := SaturatingDeadline(env.now, budget);
      var last := Ceiling(budgetAt, Min(cap, FAR_FUTURE));
      while true
        invariant Onward(old(env), env) && env.now <= last
        decreases last - env.now, if RecordOf(env, i).at.None? then 1 else 0,
                  if env.now < VerdictFloor(budgetAt, Min(cap, FAR_FUTURE), RecordOf(env, i)) then 0 else 1
      {
        ghost var before := env;
        var recorded := RecordOf(env, i).at.Some?;
        var at := VerdictFloor(budgetAt, Min(cap, FAR_FUTURE), RecordOf(env, i));
        FloorBounds(budgetAt, Min(cap, FAR_FUTURE), RecordOf(env, i));
        if Terminal(PlaneOf(env, i)) {
          return true;
        }
        Elapse(Max(0, at - env.now));
        LaterTrans(old(env), before, env);
        RecordStays(before, env, i);
        if Terminal(PlaneOf(env, i)) {
          return true;
        }
        if recorded || RecordOf(env, i).at.None? {
          ghost var mid := env;
          ElapseUntil(at);
          LaterTrans(old(env), mid, env);
          LaterTrans(before, mid, env);
          RecordStays(before, env, i);
          if VerdictFloor(budgetAt, Min(cap, FAR_FUTURE), RecordOf(env, i)) <= env.now {
            return Terminal(PlaneOf(env, i));
          }
        }
      }
    }

    /** A final sweep's wait on one leftover: until its plane is terminal or the earliest deadline the system holds
        meanwhile has passed. It is given up only at that deadline. */
    method WaitEndByTheSystemDeadline(i: nat, own: nat) returns (ended: bool)
      modifies this`env
      ensures Onward(old(env), env) && ended == (PlaneOf(env, i).stopped || PlaneOf(env, i).closed)
      ensures env.now <= Max(old(env.now), Lower(Held(old(env)), own))
      ensures !ended ==> Lower(Held(env), own) <= env.now
    {
      hide Later;
      LaterSelf(env);
      var deadline := own;
      while true
        invariant Onward(old(env), env) && env.now <= Max(old(env.now), Lower(Held(old(env)), own))
        invariant 0 <= deadline <= own && Lower(Held(env), deadline) == Lower(Held(env), own)
        decreases if Held(env).None? then 1 else 0, if Held(env).None? then 0 else Held(env).value
      {
        ghost var before := env;
        var seen := Held(env);
        deadline := Lower(Held(env), deadline);
        if Terminal(PlaneOf(env, i)) {
          return true;
        }
        Elapse(Max(0, deadline - env.now));
        LaterTrans(old(env), before, env);
        HeldFalls(before, env);
        if Terminal(PlaneOf(env, i)) {
          return true;
        }
        if Held(env) == seen || deadline <= env.now {
          ghost var mid := env;
          ElapseUntil(deadline);
          LaterTrans(old(env), mid, env);
          HeldFalls(mid, env);
          return Terminal(PlaneOf(env, i));
        }
      }
    }

    /** The second half of a forced stop: the abort, and no verdict before that abort, or one owed and late, has had
        its settle time. */
    method AbortAndSettle(i: nat, attached: bool, grace: nat, ghost start: nat) returns (ended: bool)
      requires start + Min(grace, FAR_FUTURE) <= env.now && !Terminal(PlaneOf(env, i))
      modifies this
      ensures Ran() && ended == Terminal(PlaneOf(env, i)) && Accepted(log) == Accepted(old(log))
      ensures env.now <= old(env.now) + ABORT_SETTLE + Min(grace + ABORT_SETTLE, FAR_FUTURE) + ABORT_SETTLE
      ensures !ended ==> GaveUp(log, start, i, grace, attached)
      ensures !ended && attached ==> RecordOf(env, i).at.Some? || i in env.finished
    {
      AbortTask(i, attached);
      ghost var e, log1 := env, log;
      ended := WaitEndOrFloor(i, ABORT_SETTLE, grace + ABORT_SETTLE);
      ghost var e' := env;
      RecordStays(e, e', i);
      Waiting(e, log1, e');
      TrailTrans(old(env), old(log), e, log1, e', log1);
      if !ended {
        GiveUpOn(i);
        TrailTrans(old(env), old(log), e', log1, env, log);
        assert GaveUpAt(log, start, i, grace, attached, |old(log)|, |old(log)| + 1);
      }
    }

    /** A forced stop: the grace, the abort, the settle time. It takes no longer than its bound. */
    method ForceStop(i: nat, attached: bool, grace: nat, requested: Outcome) returns (outcome: Outcome)
      requires requested == Outcome.Killed || requested == Outcome.Graceful
      modifies this
      ensures Ran() && env.now <= old(env.now) + ForceBound(grace) && Accepted(log) == Accepted(old(log))
      ensures ForceResult(env, log, old(env.now), i, grace, attached, requested, outcome)
      ensures outcome == Unresponsive && attached ==> RecordOf(env, i).at.Some? || i in env.finished
    {
      var ended := WaitTerminal(i, grace);
      ghost var e := env;
      Waiting(old(env), log, e);
      if !ended {
        ended := AbortAndSettle(i, attached, grace, old(env.now));
        TrailTrans(old(env), old(log), e, old(log), env, log);
      }
      outcome := if ended then TerminalOutcome(PlaneOf(env, i), requested) else Unresponsive;
    }
  }
}
