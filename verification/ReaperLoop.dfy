/** The reaper's task, its feed, and the entries handed to it. */
module ReaperLoop {
  import opened Base
  import opened Lane
  import opened AbortRecord
  import opened Reaper
  import opened ReaperTruth

  // ----- The records of the tasks

  function RecordOf(records: map<nat, Record>, t: nat): Record { if t in records then records[t] else BLANK }

  /** An abort is issued or no longer needed, and none is owed. */
  predicate IsSettled(records: map<nat, Record>, t: nat) { t in records && Settled(records[t]) && !records[t].owed }

  /** A record says its actor has ended only if it has; `over` are those that have. */
  predicate EndsTrue(records: map<nat, Record>, over: set<nat>) {
    forall t :: t in records && records[t].ended ==> t in over
  }

  /** An abort is issued, or the actor has ended, and none is owed. */
  predicate Enforced(records: map<nat, Record>, over: set<nat>, t: nat) {
    t in records && !records[t].owed && (records[t].at.Some? || t in over)
  }

  predicate AllOwed(records: map<nat, Record>, es: seq<Entry>) {
    forall k :: 0 <= k < |es| ==> es[k].task in records && OwedOrSettled(records[es[k].task])
  }

  predicate CallsSettled(records: map<nat, Record>, log: seq<Event>) {
    forall k :: 0 <= k < |log| && log[k].AbortCalled? ==> IsSettled(records, log[k].task)
  }

  /** Every entry that waits has its abort owed, issued or no longer needed; every entry that called for its abort has
      it issued or no longer needed. */
  predicate Covered(records: map<nat, Record>, heap: seq<Entry>, feed: seq<Entry>, log: seq<Event>) {
    && (forall t :: t in records ==> Ok(records[t]))
    && AllOwed(records, heap) && AllOwed(records, feed) && CallsSettled(records, log)
  }

  /** What others do to the records meanwhile. */
  predicate RecordsLater(a: map<nat, Record>, b: map<nat, Record>) {
    && (forall t :: t in a ==> t in b && RecordLater(a[t], b[t]))
    && (forall t :: t in b && t !in a ==> Ok(b[t]))
  }

  lemma RecordsTrans(a: map<nat, Record>, b: map<nat, Record>, c: map<nat, Record>)
    requires RecordsLater(a, b) && RecordsLater(b, c)
    ensures RecordsLater(a, c)
  {
  }

  lemma CoveredStays(a: map<nat, Record>, b: map<nat, Record>, heap: seq<Entry>, feed: seq<Entry>, log: seq<Event>)
    requires Covered(a, heap, feed, log) && RecordsLater(a, b)
    ensures Covered(b, heap, feed, log)
  {
  }

  function CallAbortOn(records: map<nat, Record>, t: nat, finished: bool, now: nat): map<nat, Record> {
    records[t := Abort(RecordOf(records, t), finished, now)]
  }

  /** A call for an abort settles the record, whoever called before. */
  lemma CallSettles(records: map<nat, Record>, t: nat, finished: bool, now: nat)
    requires t in records ==> Ok(records[t])
    ensures RecordsLater(records, CallAbortOn(records, t, finished, now))
    ensures IsSettled(CallAbortOn(records, t, finished, now), t)
  {
  }

  lemma CallEnds(records: map<nat, Record>, over: set<nat>, t: nat, finished: bool, now: nat)
    requires EndsTrue(records, over) && (finished ==> t in over)
    ensures EndsTrue(CallAbortOn(records, t, finished, now), over)
  {
  }

  lemma CoveredCall(records: map<nat, Record>, heap: seq<Entry>, feed: seq<Entry>, log: seq<Event>, cause: Event,
                    e: Entry,
                    finished: bool, now: nat)
    requires Covered(records, heap, feed, log) && !cause.AbortCalled?
    ensures var log' := log + [cause] + [AbortCalled(e.id, e.task, now)];
            Covered(CallAbortOn(records, e.task, finished, now), heap, feed, log')
  {
    CallSettles(records, e.task, finished, now);
    CoveredStays(records, CallAbortOn(records, e.task, finished, now), heap, feed, log);
  }

  /** Records and lanes later on: the first abort stands, what is owed is, and no lane forgets what it was asked. */
  predicate WentOn(records: map<nat, Record>, lanes: map<nat, LaneState>, records': map<nat, Record>,
                   lanes': map<nat, LaneState>) {
    RecordsLater(records, records') && LanesLater(lanes, lanes')
  }

  lemma WentOnSelf(records: map<nat, Record>, lanes: map<nat, LaneState>)
    ensures WentOn(records, lanes, records, lanes)
  {
  }

  lemma WentOnTrans(r1: map<nat, Record>, l1: map<nat, LaneState>, r2: map<nat, Record>, l2: map<nat, LaneState>,
                    r3: map<nat, Record>, l3: map<nat, LaneState>)
    requires WentOn(r1, l1, r2, l2) && WentOn(r2, l2, r3, l3)
    ensures WentOn(r1, l1, r3, l3)
  {
    RecordsTrans(r1, r2, r3);
    forall t | t in l1 ensures t in l3 && LaneLater(l1[t], l3[t]) {
      assert t in l2 && LaneLater(l1[t], l2[t]) && LaneLater(l2[t], l3[t]);
    }
  }

  lemma RaisingWentOn(records: map<nat, Record>, lanes: map<nat, LaneState>, t: nat)
    ensures WentOn(records, lanes, records, RaiseKillOn(lanes, t))
  {
    RaiseKillLater(lanes, t);
  }

  lemma OwingWentOn(records: map<nat, Record>, lanes: map<nat, LaneState>, t: nat, finished: bool)
    ensures WentOn(records, lanes, records[t := OweFor(RecordOf(records, t), finished)], lanes)
  {
  }

  // ----- Whose abort an entry is

  /** `tasks` has the task of every entry there ever was. */
  predicate Known(tasks: map<nat, nat>, heap: seq<Entry>, feed: seq<Entry>, log: seq<Event>) {
    && (forall k :: 0 <= k < |heap| ==> Knows(tasks, heap[k].id, heap[k].task))
    && (forall k :: 0 <= k < |feed| ==> Knows(tasks, feed[k].id, feed[k].task))
    && (forall k :: 0 <= k < |log| && log[k].AbortCalled? ==> Knows(tasks, log[k].id, log[k].task))
    && (forall k :: 0 <= k < |log| && log[k].Acted? ==> Knows(tasks, log[k].entry.id, log[k].entry.task))
  }

  predicate Knows(tasks: map<nat, nat>, id: nat, task: nat) { id in tasks && tasks[id] == task }

  lemma {:induction false} CalledWhere(log: seq<Event>, id: nat) returns (k: nat)
    requires id in AbortedIds(log)
    ensures k < |log| && log[k].AbortCalled? && log[k].id == id
  {
    var n := |log| - 1;
    if log[n].AbortCalled? && log[n].id == id {
      k := n;
    } else {
      k := CalledWhere(log[..n], id);
    }
  }

  /** Once every entry has called for its abort, the record of every task there was an entry for is settled. */
  lemma AllSettled(records: map<nat, Record>, tasks: map<nat, nat>, log: seq<Event>)
    requires CallsSettled(records, log) && Known(tasks, [], [], log) && forall id :: id in tasks ==>
        id in AbortedIds(log)
    ensures forall id :: id in tasks ==> IsSettled(records, tasks[id])
  {
    forall id | id in tasks ensures IsSettled(records, tasks[id]) {
      var k := CalledWhere(log, id);
      assert Knows(tasks, log[k].id, log[k].task);
    }
  }

  /** From `log` to `log'` nothing was dropped. */
  predicate NoDrops(log: seq<Event>, log': seq<Event>) {
    log <= log' && forall k :: |log| <= k < |log'| ==> !log'[k].Dropped?
  }

  lemma NoDropsTransitive(a: seq<Event>, b: seq<Event>, c: seq<Event>)
    requires NoDrops(a, b) && NoDrops(b, c)
    ensures NoDrops(a, c)
  {
    forall k | |a| <= k < |c| ensures !c[k].Dropped? {
      assert k < |b| ==> c[k] == b[k];
    }
  }

  // ----- Each step, on values

  lemma Unfired(heap: seq<Entry>, feed: seq<Entry>, log: seq<Event>)
    requires Sound(heap, feed, log)
    ensures (forall k :: 0 <= k < |heap| ==> !heap[k].fired) && forall k :: 0 <= k < |feed| ==> !feed[k].fired
  {
  }

  /** All there is to say of a reaper. */
  predicate AllOk(heap: seq<Entry>, feed: seq<Entry>, log: seq<Event>, records: map<nat, Record>, tasks: map<nat, nat>,
                  nextId: nat) {
    && Sound(heap, feed, log) && Covered(records, heap, feed, log) && Known(tasks, heap, feed, log)
    && AllHere(tasks, Total(heap, feed, log), nextId)
  }

  /** Every entry there ever was is here, or has called for its abort. */
  predicate AllHere(tasks: map<nat, nat>, total: multiset<nat>, nextId: nat) {
    && (forall id :: id in tasks ==> id in total && id < nextId)
    && (forall id :: id in total ==> id in tasks)
  }

  lemma OneMoreHere(tasks: map<nat, nat>, total: multiset<nat>, nextId: nat, id: nat, task: nat)
    requires AllHere(tasks, total, nextId) && id < nextId
    ensures AllHere(tasks[id := task], total + multiset{id}, nextId)
  {
  }

  lemma ReceiveKnown(heap: seq<Entry>, feed: seq<Entry>, log: seq<Event>, records: map<nat, Record>,
                     tasks: map<nat, nat>)
    requires Covered(records, heap, feed, log) && Known(tasks, heap, feed, log) && feed != []
    ensures var heap', log' := heap + [feed[0]], log + [Received(feed[0])];
            Covered(records, heap', feed[1..], log') && Known(tasks, heap', feed[1..], log')
  {
  }

  lemma RestKnown(heap: seq<Entry>, feed: seq<Entry>, log: seq<Event>, records: map<nat, Record>, tasks: map<nat, nat>)
    requires Covered(records, heap, feed, log) && Known(tasks, heap, feed, log) && feed != []
    ensures Covered(records, heap, feed[1..], log) && Known(tasks, heap, feed[1..], log)
        && Knows(tasks, feed[0].id, feed[0].task)
  {
  }

  lemma QueueKnown(heap: seq<Entry>, feed: seq<Entry>, log: seq<Event>, records: map<nat, Record>,
                   tasks: map<nat, nat>, e: Entry)
    requires Covered(records, heap, feed, log) && Known(tasks, heap, feed, log)
    requires e.id !in tasks && e.task in records && OwedOrSettled(records[e.task])
    ensures Covered(records, heap, feed + [e], log) && Known(tasks[e.id := e.task], heap, feed + [e], log)
    ensures Known(tasks[e.id := e.task], heap, feed, log)
  {
  }

  lemma BackKnown(heap: seq<Entry>, feed: seq<Entry>, log: seq<Event>, records: map<nat, Record>, tasks: map<nat, nat>,
                  k: nat,
                  now: nat)
    requires k < |heap| && heap[k].killStage.Some? && Covered(records, heap, feed, log) && Known(tasks, heap, feed, log)
    ensures var heap', log' := Without(heap, k) + [AfterKill(heap[k], now)], log + [Acted(heap[k], now, true)];
            Covered(records, heap', feed, log') && Known(tasks, heap', feed, log')
  {
    WithoutKnown(heap, feed, log, records, tasks, k);
  }

  lemma KillFiresOk(heap: seq<Entry>, feed: seq<Entry>, log: seq<Event>, records: map<nat, Record>,
                    tasks: map<nat, nat>,
                    nextId: nat, k: nat, now: nat)
    requires AllOk(heap, feed, log, records, tasks, nextId) && Actable(heap, k, now) && heap[k].killStage.Some?
    ensures var heap', log' := Without(heap, k) + [AfterKill(heap[k], now)], log + [Acted(heap[k], now, true)];
            && AllOk(heap', feed, log', records, tasks, nextId) && Total(heap', feed, log') == Total(heap, feed, log)
            && AllStages(heap') < AllStages(heap) && NoDrops(log, log')
  {
    KillFires(heap, feed, log, k, now);
    BackKnown(heap, feed, log, records, tasks, k, now);
  }

  /** Dropping an entry from the heap leaves what is known and owed of the others. */
  lemma WithoutKnown(heap: seq<Entry>, feed: seq<Entry>, log: seq<Event>, records: map<nat, Record>,
                     tasks: map<nat, nat>, k: nat)
    requires k < |heap| && Covered(records, heap, feed, log) && Known(tasks, heap, feed, log)
    ensures Covered(records, Without(heap, k), feed, log) && Known(tasks, Without(heap, k), feed, log)
    ensures Knows(tasks, heap[k].id, heap[k].task)
  {
    var rest := Without(heap, k);
    forall j | 0 <= j < |rest|
      ensures Knows(tasks, rest[j].id, rest[j].task) && rest[j].task in records && OwedOrSettled(records[rest[j].task])
    {
      assert rest[j] == heap[if j < k then j else j + 1];
    }
  }

  lemma KnownCall(heap: seq<Entry>, feed: seq<Entry>, log: seq<Event>, tasks: map<nat, nat>, cause: Event, e: Entry,
                  now: nat)
    requires Known(tasks, heap, feed, log) && Knows(tasks, e.id, e.task)
    requires !cause.AbortCalled? && (cause.Acted? ==> cause.entry == e)
    ensures Known(tasks, heap, feed, log + [cause] + [AbortCalled(e.id, e.task, now)])
  {
  }

  lemma AbortFiresOk(heap: seq<Entry>, feed: seq<Entry>, log: seq<Event>, records: map<nat, Record>,
                     tasks: map<nat, nat>,
                     nextId: nat, k: nat, now: nat, running: bool)
    requires AllOk(heap, feed, log, records, tasks, nextId) && Actable(heap, k, now)
        && (running ==> heap[k].killStage.None?)
    ensures var e := heap[k];
            var heap', log' := Without(heap, k), log + [Acted(e, now, running)] + [AbortCalled(e.id, e.task, now)];
            && AllOk(heap', feed, log', CallAbortOn(records, e.task, !running, now), tasks, nextId)
            && Total(heap', feed, log') == Total(heap, feed, log)
            && AllStages(heap') < AllStages(heap) && NoDrops(log, log')
  {
    hide Sound, Covered, Known, AllHere, Total, AllStages;
    var e := heap[k];
    AbortFires(heap, feed, log, k, now, running);
    WithoutKnown(heap, feed, log, records, tasks, k);
    CoveredCall(records, Without(heap, k), feed, log, Acted(e, now, running), e, !running, now);
    KnownCall(Without(heap, k), feed, log, tasks, Acted(e, now, running), e, now);
  }

  lemma ReceiveOk(heap: seq<Entry>, feed: seq<Entry>, log: seq<Event>, records: map<nat, Record>, tasks: map<nat, nat>,
                  nextId: nat)
    requires AllOk(heap, feed, log, records, tasks, nextId) && feed != []
    ensures var heap', log' := heap + [feed[0]], log + [Received(feed[0])];
            && AllOk(heap', feed[1..], log', records, tasks, nextId)
            && Total(heap', feed[1..], log') == Total(heap, feed, log)
            && AllStages(heap') <= AllStages(heap) + 2 && NoDrops(log, log')
  {
    hide Sound, Covered, Known, AllHere, Total;
    Receive(heap, feed, log);
    AppendIds(heap, feed[0]);
    ReceiveKnown(heap, feed, log, records, tasks);
  }

  /** An entry that no event is about yet. */
  lemma NewWaits(heap: seq<Entry>, feed: seq<Entry>, log: seq<Event>, tasks: map<nat, nat>, e: Entry)
    requires Known(tasks, heap, feed, log) && e.id !in tasks && !e.fired
    ensures Waits(log, e)
  {
  }

  /** No entry and no action is of an id not known of. */
  lemma NewUnheard(heap: seq<Entry>, feed: seq<Entry>, log: seq<Event>, tasks: map<nat, nat>, id: nat)
    requires Known(tasks, heap, feed, log) && id !in tasks
    ensures Unheard(heap, feed, log, id)
  {
  }

  /** A new entry: in nobody's hands but its maker's. */
  predicate Loose(log: seq<Event>, records: map<nat, Record>, tasks: map<nat, nat>, nextId: nat, e: Entry) {
    e.id !in tasks && e.id < nextId && Waits(log, e) && e.task in records && OwedOrSettled(records[e.task])
  }

  /** An entry is made: its abort is owed. */
  lemma NewOk(heap: seq<Entry>, feed: seq<Entry>, log: seq<Event>, records: map<nat, Record>, tasks: map<nat, nat>,
              nextId: nat,
              e: Entry, finished: bool)
    requires AllOk(heap, feed, log, records, tasks, nextId) && e.id == nextId && !e.fired
    ensures var records' := records[e.task := OweFor(RecordOf(records, e.task), finished)];
            AllOk(heap, feed, log, records', tasks, nextId + 1) && Loose(log, records', tasks, nextId + 1, e)
  {
    CoveredStays(records, records[e.task := OweFor(RecordOf(records, e.task), finished)], heap, feed, log);
    NewWaits(heap, feed, log, tasks, e);
  }

  /** A new entry stays so while others are dropped. */
  lemma StillLoose(heap: seq<Entry>, feed: seq<Entry>, log: seq<Event>, log': seq<Event>, records: map<nat, Record>,
                   records': map<nat, Record>, tasks: map<nat, nat>, nextId: nat, e: Entry)
    requires Loose(log, records, tasks, nextId, e) && AllOk(heap, feed, log', records', tasks, nextId)
    requires RecordsLater(records, records')
    ensures Loose(log', records', tasks, nextId, e)
  {
    NewWaits(heap, feed, log', tasks, e);
  }

  lemma QueueOk(heap: seq<Entry>, feed: seq<Entry>, log: seq<Event>, records: map<nat, Record>, tasks: map<nat, nat>,
                nextId: nat,
                e: Entry)
    requires AllOk(heap, feed, log, records, tasks, nextId) && Loose(log, records, tasks, nextId, e)
    ensures AllOk(heap, feed + [e], log, records, tasks[e.id := e.task], nextId)
    ensures Total(heap, feed + [e], log) == Total(heap, feed, log) + multiset{e.id}
  {
    OneMore(heap, feed, log, e);
    QueueKnown(heap, feed, log, records, tasks, e);
    OneMoreHere(tasks, Total(heap, feed, log), nextId, e.id, e.task);
  }

  /** A loose entry is dropped: its maker could not hand it over. */
  lemma DropLooseOk(heap: seq<Entry>, feed: seq<Entry>, log: seq<Event>, records: map<nat, Record>,
                    tasks: map<nat, nat>,
                    nextId: nat, e: Entry, finished: bool, now: nat)
    requires AllOk(heap, feed, log, records, tasks, nextId) && Loose(log, records, tasks, nextId, e)
    ensures var log' := log + [Dropped(e, false)] + [AbortCalled(e.id, e.task, now)];
            && AllOk(heap, feed, log', CallAbortOn(records, e.task, finished, now), tasks[e.id := e.task], nextId)
            && Total(heap, feed, log') == Total(heap, feed, log) + multiset{e.id} && !e.fired
            && e.id in AbortedIds(log') && IsSettled(CallAbortOn(records, e.task, finished, now), e.task)
  {
    CallSettles(records, e.task, finished, now);
    LogGrows(log + [Dropped(e, false)], AbortCalled(e.id, e.task, now));
    DropLoose(heap, feed, log, e, now);
    CoveredCall(records, heap, feed, log, Dropped(e, false), e, finished, now);
    QueueKnown(heap, feed, log, records, tasks, e);
    KnownCall(heap, feed, log, tasks[e.id := e.task], Dropped(e, false), e, now);
    OneMoreHere(tasks, Total(heap, feed, log), nextId, e.id, e.task);
  }

  lemma DropHeapOk(heap: seq<Entry>, feed: seq<Entry>, log: seq<Event>, records: map<nat, Record>, tasks: map<nat, nat>,
                   nextId: nat, k: nat, finished: bool, now: nat)
    requires AllOk(heap, feed, log, records, tasks, nextId) && k < |heap|
    ensures var e := heap[k];
            var heap', log' := Without(heap, k), log + [Dropped(e, true)] + [AbortCalled(e.id, e.task, now)];
            && AllOk(heap', feed, log', CallAbortOn(records, e.task, finished, now), tasks, nextId)
            && Total(heap', feed, log') == Total(heap, feed, log) && !e.fired
            && RecordsLater(records, CallAbortOn(records, e.task, finished, now))
  {
    var e := heap[k];
    Unfired(heap, feed, log);
    CallSettles(records, e.task, finished, now);
    DropHeld(heap, feed, log, k, now);
    WithoutKnown(heap, feed, log, records, tasks, k);
    CoveredCall(records, Without(heap, k), feed, log, Dropped(e, true), e, finished, now);
    KnownCall(Without(heap, k), feed, log, tasks, Dropped(e, true), e, now);
  }

  lemma DropFeedOk(heap: seq<Entry>, feed: seq<Entry>, log: seq<Event>, records: map<nat, Record>, tasks: map<nat, nat>,
                   nextId: nat, finished: bool, now: nat)
    requires AllOk(heap, feed, log, records, tasks, nextId) && feed != []
    ensures var log' := log + [Dropped(feed[0], false)] + [AbortCalled(feed[0].id, feed[0].task, now)];
            && AllOk(heap, feed[1..], log', CallAbortOn(records, feed[0].task, finished, now), tasks, nextId)
            && Total(heap, feed[1..], log') == Total(heap, feed, log) && !feed[0].fired
            && RecordsLater(records, CallAbortOn(records, feed[0].task, finished, now))
  {
    Unfired(heap, feed, log);
    CallSettles(records, feed[0].task, finished, now);
    FeedRest(heap, feed, log);
    DropLoose(heap, feed[1..], log, feed[0], now);
    RestKnown(heap, feed, log, records, tasks);
    CoveredCall(records, heap, feed[1..], log, Dropped(feed[0], false), feed[0], finished, now);
    KnownCall(heap, feed[1..], log, tasks, Dropped(feed[0], false), feed[0], now);
  }

  /** With nothing held and nothing queued, every entry there ever was has called for its abort, once. */
  lemma AllSettledAtLast(log: seq<Event>, records: map<nat, Record>, tasks: map<nat, nat>, nextId: nat, over: set<nat>,
                         some: set<nat>)
    requires AllOk([], [], log, records, tasks, nextId) && EndsTrue(records, over) && over <= some
    ensures forall id :: id in tasks ==> AbortedIds(log)[id] == 1 && Enforced(records, some, tasks[id])
  {
    assert Total([], [], log) == AbortedIds(log);
    AllSettled(records, tasks, log);
  }

  lemma CallingWentOn(heap: seq<Entry>, feed: seq<Entry>, log: seq<Event>, records: map<nat, Record>,
                      tasks: map<nat, nat>, nextId: nat, lanes: map<nat, LaneState>, t: nat, finished: bool, now: nat)
    requires AllOk(heap, feed, log, records, tasks, nextId)
    ensures WentOn(records, lanes, CallAbortOn(records, t, finished, now), lanes)
  {
    CallSettles(records, t, finished, now);
  }

  /** What the log of a reaper reads as. */
  lemma Reading(heap: seq<Entry>, feed: seq<Entry>, log: seq<Event>, lanes: map<nat, LaneState>, asked: map<nat, Asked>,
                finished: set<nat>, records: map<nat, Record>, tasks: map<nat, nat>, nextId: nat)
    requires AllOk(heap, feed, log, records, tasks, nextId) && Truthful(heap, feed, log, lanes, asked, finished)
    ensures LogTrue(log, lanes, asked, finished) && Refines(log)
    ensures forall k :: 0 <= k < |log| ==> AfterItsKill(log, asked, finished, k) && FiredInTime(log, asked, k)
  {
    KillsComeFirst(log, lanes, asked, finished);
    AllInTime(log, lanes, asked, finished);
  }

  /** When the abort of a two-stage entry came by a firing: its task has finished by now, or its `Kill` stage had fired
      before, by its whole grace, and the task's lane holds a `Kill` or refuses it. */
  lemma AbortAfterKill(heap: seq<Entry>, feed: seq<Entry>, log: seq<Event>, lanes: map<nat, LaneState>,
                       asked: map<nat, Asked>, finished: set<nat>, records: map<nat, Record>, tasks: map<nat, nat>,
                       nextId: nat, k: nat) returns (j: nat)
    requires AllOk(heap, feed, log, records, tasks, nextId) && Truthful(heap, feed, log, lanes, asked, finished)
    requires 0 < k < |log| && log[k].AbortCalled? && log[k - 1].Acted? && TwoStaged(asked, log[k].id)
    ensures log[k].task in finished
            || (j < k - 1 && Raises(log[j]) && log[j].entry.id == log[k].id
                && log[j].at + Min(log[j].entry.killStage.value.grace, FAR_FUTURE) <= log[k - 1].at
                && KillHeard(LaneOf(lanes, log[k].task)))
  {
    hide Covered, AllHere, KillHeard;
    assert CausedAt(log, k) && EventTrue(lanes, finished, log[k - 1]) && KilledFirst(log, asked, k - 1);
    j := 0;
    if log[k].task !in finished {
      var n :| 0 <= n < k - 1 && Raises(log[n]) && log[n].entry.id == log[k].id;
      j := n;
      assert GraceBetween(log, j, k - 1) && EventTrue(lanes, finished, log[j]);
      assert Knows(tasks, log[j].entry.id, log[j].entry.task) && Knows(tasks, log[k].id, log[k].task);
    }
  }

  // ----- The task

  /** What happens to a reaper at its next wait: another party hands it an entry, it wakes, with an entry received or
      not, or its future is dropped. */
  datatype Turn = Arrives(task: nat, killAt: Option<nat>, deadline: nat) | Wakes(received: bool) | Cut

  /** How many entries come. */
  function Arrivals(script: seq<Turn>): nat {
    if script == [] then 0
    else Arrivals(script[..|script| - 1]) + (if script[|script| - 1].Arrives? then 1 else 0)
  }

  /** No entry is forgotten. */
  predicate Extends<T(==)>(a: map<nat, T>, b: map<nat, T>) { forall id :: id in a ==> id in b && b[id] == a[id] }

  /** The entry that turn `k` brought, if it brought one, is `ids[k]`: none there was before, and with the task and the
      instants it came with. */
  predicate HandedAt(script: seq<Turn>, was: map<nat, nat>, tasks: map<nat, nat>, asked: map<nat, Asked>, ids: seq<nat>,
                     k: nat)
    requires k < |ids| <= |script|
  {
    script[k].Arrives? ==>
      && ids[k] !in was && ids[k] in tasks && tasks[ids[k]] == script[k].task
      && ids[k] in asked && asked[ids[k]] == Asked(script[k].killAt, script[k].deadline)
      && forall j :: 0 <= j < k && script[j].Arrives? ==> ids[j] != ids[k]
  }

  /** The entries that the first `|ids|` turns brought. */
  predicate Handed(script: seq<Turn>, was: map<nat, nat>, tasks: map<nat, nat>, asked: map<nat, Asked>, ids: seq<nat>) {
    |ids| <= |script| && forall k :: 0 <= k < |ids| ==> HandedAt(script, was, tasks, asked, ids, k)
  }

  /** One more turn. */
  lemma OneMoreTurn(script: seq<Turn>, was: map<nat, nat>, tasks: map<nat, nat>, asked: map<nat, Asked>, ids: seq<nat>,
                    tasks': map<nat, nat>, asked': map<nat, Asked>, id: nat)
    requires Handed(script, was, tasks, asked, ids) && |ids| < |script| && Extends(was, tasks)
    requires var turn := script[|ids|];
             if turn.Arrives? then
               && id !in tasks && tasks' == tasks[id := turn.task]
               && asked' == asked[id := Asked(turn.killAt, turn.deadline)]
             else tasks' == tasks && asked' == asked
    ensures Handed(script, was, tasks', asked', ids + [id])
  {
    forall k | 0 <= k < |ids| + 1 ensures HandedAt(script, was, tasks', asked', ids + [id], k) {
      if k < |ids| {
        assert HandedAt(script, was, tasks, asked, ids, k);
      } else if script[k].Arrives? {
        forall j | 0 <= j < k && script[j].Arrives? ensures (ids + [id])[j] != id {
          assert HandedAt(script, was, tasks, asked, ids, j);
        }
      }
    }
  }

  lemma OneMoreArrival(script: seq<Turn>, n: nat)
    requires n < |script|
    ensures Arrivals(script[..n + 1]) == Arrivals(script[..n]) + (if script[n].Arrives? then 1 else 0)
  {
    assert script[..n + 1][..n] == script[..n];
  }

  /** What the turns so far have brought. */
  ghost predicate TurnsOk(script: seq<Turn>, was: map<nat, nat>, wasAsked: map<nat, Asked>, tasks: map<nat, nat>,
                          asked: map<nat, Asked>, ids: seq<nat>) {
    && Handed(script, was, tasks, asked, ids) && Extends(was, tasks) && Extends(wasAsked, asked)
    && |tasks| == |was| + Arrivals(script[..|ids|])
  }

  lemma NoTurns(script: seq<Turn>, tasks: map<nat, nat>, asked: map<nat, Asked>)
    ensures TurnsOk(script, tasks, asked, tasks, asked, [])
  {
  }

  lemma OneTurn(script: seq<Turn>, was: map<nat, nat>, wasAsked: map<nat, Asked>, tasks: map<nat, nat>,
                asked: map<nat, Asked>, ids: seq<nat>, tasks': map<nat, nat>, asked': map<nat, Asked>, id: nat)
    requires TurnsOk(script, was, wasAsked, tasks, asked, ids) && |ids| < |script| && asked.Keys == tasks.Keys
    requires var turn := script[|ids|];
             if turn.Arrives? then
               && id !in tasks && tasks' == tasks[id := turn.task]
               && asked' == asked[id := Asked(turn.killAt, turn.deadline)]
             else tasks' == tasks && asked' == asked
    ensures TurnsOk(script, was, wasAsked, tasks', asked', ids + [id])
  {
    hide Handed, Arrivals;
    OneMoreTurn(script, was, tasks, asked, ids, tasks', asked', id);
    OneMoreArrival(script, |ids|);
  }

  lemma NoDropsSelf(log: seq<Event>)
    ensures NoDrops(log, log)
  {
  }

  /** How much the loop has still to do: every stage, every entry to receive, and the close of the feed. */
  function Left(open: bool, feed: seq<Entry>, heap: seq<Entry>): nat {
    (if open then 1 else 0) + 3 * |feed| + AllStages(heap)
  }

  /** The reaper of one runtime: its feed and its heap, the clock, the tasks that have finished, the actors that have
      ended, and the records and the lanes of all tasks. An actor's task finishes once the actor has ended. */
  class ReaperTask {
    var feed: seq<Entry>
    var heap: seq<Entry>
    var now: nat
    var finished: set<nat>
    var over: set<nat>
    var records: map<nat, Record>
    var lanes: map<nat, LaneState>
    var nextId: nat
    /** The task of every entry there ever was, what it was submitted with, and what the reaper did. */
    ghost var tasks: map<nat, nat>
    ghost var asked: map<nat, Asked>
    ghost var log: seq<Event>

    ghost predicate Valid()
      reads this
    {
      AllOk(heap, feed, log, records, tasks, nextId) && Grounded()
    }

    /** What the log and the records say of the tasks and their lanes is so. */
    ghost predicate Grounded()
      reads this
    {
      && Truthful(heap, feed, log, lanes, asked, finished) && asked.Keys == tasks.Keys
      && EndsTrue(records, over) && finished <= over
    }

    constructor (clock: nat)
      ensures Valid() && heap == feed == [] && log == [] && tasks == map[] && asked == map[] && now == clock
    {
      feed, heap, now, nextId, finished, over, records, lanes := [], [], clock, 0, {}, {}, map[], map[];
      tasks, asked, log := map[], map[], [];
    }

    /** Some of the actors of `may` may have ended since, and no other. */
    twostate predicate EndedAmong(may: set<nat>)
      reads this
    {
      old(finished) <= finished <= old(finished) + may && old(over) <= over <= old(over) + may
    }

    /** Time passes, to `until` at least; actors of `may` end meanwhile, and others use the records and the lanes. */
    method Elapse(until: nat, may: set<nat>)
      requires EndsTrue(records, over) && finished <= over
      modifies this`now, this`finished, this`over, this`records, this`lanes
      ensures now >= old(now) && now >= until && EndedAmong(may) && finished <= over
      ensures WentOn(old(records), old(lanes), records, lanes) && EndsTrue(records, over)
    {
      WentOnSelf(records, lanes);
      var late: int := *;
      var ended: set<nat> := *;
      var gone: set<nat> := *;
      var used: map<nat, Record> := *;
      var asked: map<nat, LaneState> := *;
      finished, over := finished + ended * may, over + (ended + gone) * may;
      if RecordsLater(records, used) && EndsTrue(used, over) {
        records := used;
      }
      if LanesLater(lanes, asked) {
        lanes := asked;
      }
      if late >= now && late >= until {
        now := late;
      } else if now < until {
        now := until;
      }
    }

    /** ... which leaves the reaper as it is. */
    method Wait(until: nat, may: set<nat>)
      requires Valid()
      modifies this`now, this`finished, this`over, this`records, this`lanes
      ensures Valid() && now >= until && EndedAmong(may) && WentOn(old(records), old(lanes), records, lanes)
    {
      hide Sound, Known, AllHere, Truthful;
      ghost var was, wasLanes, wasFinished := records, lanes, finished;
      Elapse(until, may);
      CoveredStays(was, records, heap, feed, log);
      TruthStays(heap, feed, log, wasLanes, asked, wasFinished, lanes, finished);
    }

    /** The abort of the entry's task, through its record. */
    method CallAbort(e: Entry)
      modifies this`records, this`log
      ensures records == CallAbortOn(old(records), e.task, e.task in finished, now)
      ensures log == old(log) + [AbortCalled(e.id, e.task, now)]
    {
      records := records[e.task := Abort(RecordOf(records, e.task), e.task in finished, now)];
      log := log + [AbortCalled(e.id, e.task, now)];
    }

    /** What runs whenever an entry goes, after its firing too: the abort, unless the entry fired. */
    method DropEntry(e: Entry)
      modifies this`records, this`log
      ensures e.fired ==> records == old(records) && log == old(log)
      ensures !e.fired ==> records == CallAbortOn(old(records), e.task, e.task in finished, now)
      ensures !e.fired ==> log == old(log) + [AbortCalled(e.id, e.task, now)]
    {
      if !e.fired {
        CallAbort(e);
      }
    }

    /** Acts on an entry taken from the heap. A pending first stage of a running task raises `Kill` on the task's lane,
        where it stands then or is refused, and hands the entry back, its abort stage no earlier than its grace from
        now; anything else fires it, calls for its abort, and lets it go. */
    method FireEntry(e: Entry) returns (rest: Option<Entry>)
      modifies this`records, this`log, this`lanes
      ensures rest == if e.task !in finished && e.killStage.Some? then Some(AfterKill(e, now)) else None
      ensures rest.Some? ==> records == old(records) && log == old(log) + [Acted(e, now, true)]
      ensures rest.Some? ==> lanes == RaiseKillOn(old(lanes), e.task) && KillHeard(LaneOf(lanes, e.task))
      ensures rest.None? ==>
                && records == CallAbortOn(old(records), e.task, e.task in finished, now) && lanes == old(lanes)
                && log == old(log) + [Acted(e, now, e.task !in finished)] + [AbortCalled(e.id, e.task, now)]
    {
      log := log + [Acted(e, now, e.task !in finished)];
      if e.task !in finished && e.killStage.Some? {
        RaiseKillLater(lanes, e.task);
        lanes := lanes[e.task := TryRaise(LaneOf(lanes, e.task), Kill).0];
        return Some(AfterKill(e, now));
      }
      var mine := e.(fired := true);
      CallAbort(mine);
      DropEntry(mine);
      rest := None;
    }

    /** Pops the earliest entry and fires it. */
    method FireDue()
      requires Valid() && exists x :: x in heap && Due(x) <= now
      modifies this`heap, this`records, this`log, this`lanes
      ensures Valid() && Total(heap, feed, log) == old(Total(heap, feed, log))
      ensures AllStages(heap) < old(AllStages(heap)) && NoDrops(old(log), log)
      ensures WentOn(old(records), old(lanes), records, lanes)
    {
      hide AllOk, Total, NoDrops, AllStages, Truthful, EndsTrue, KillHeard, WentOn;
      var e, rest;
      ghost var k;
      e, rest, k := PopEarliest(heap);
      if e.task !in finished && e.killStage.Some? {
        KillFiresOk(heap, feed, log, records, tasks, nextId, k, now);
        KillFiresTrue(heap, feed, log, lanes, asked, finished, k, now);
        RaisingWentOn(records, lanes, e.task);
      } else {
        AbortFiresOk(heap, feed, log, records, tasks, nextId, k, now, e.task !in finished);
        AbortFiresTrue(heap, feed, log, lanes, asked, finished, k, now);
        CallingWentOn(heap, feed, log, records, tasks, nextId, lanes, e.task, e.task in finished, now);
        CallEnds(records, over, e.task, e.task in finished, now);
      }
      var back := FireEntry(e);
      heap := if back.Some? then rest + [back.value] else rest;
    }

    /** Sleeps until the earliest entry is due, or longer, and fires. */
    method FireNext(may: set<nat>)
      requires Valid() && heap != []
      modifies this`heap, this`records, this`log, this`now, this`finished, this`over, this`lanes
      ensures Valid() && Total(heap, feed, log) == old(Total(heap, feed, log)) && EndedAmong(may)
      ensures AllStages(heap) < old(AllStages(heap)) && NoDrops(old(log), log)
      ensures WentOn(old(records), old(lanes), records, lanes)
    {
      hide AllOk, Total, NoDrops, AllStages, Truthful, EndsTrue, WentOn;
      var earliest, _, _ := PopEarliest(heap);
      Wait(Due(earliest), may);
      ghost var midRecords, midLanes := records, lanes;
      FireDue();
      WentOnTrans(old(records), old(lanes), midRecords, midLanes, records, lanes);
    }

    /** The next entry of the feed goes into the heap. */
    method ReceiveNext(may: set<nat>)
      requires Valid() && feed != []
      modifies this`heap, this`feed, this`now, this`finished, this`over, this`records, this`lanes, this`log
      ensures Valid() && Total(heap, feed, log) == old(Total(heap, feed, log)) && EndedAmong(may)
      ensures feed == old(feed)[1..] && heap == old(heap) + [old(feed)[0]] && NoDrops(old(log), log)
      ensures AllStages(heap) <= old(AllStages(heap)) + 2 && WentOn(old(records), old(lanes), records, lanes)
    {
      hide AllOk, Total, NoDrops, AllStages, Truthful, EndsTrue, WentOn;
      Wait(now, may);
      ReceiveOk(heap, feed, log, records, tasks, nextId);
      ReceiveTrue(heap, feed, log, lanes, asked, finished);
      log, heap, feed := log + [Received(feed[0])], heap + [feed[0]], feed[1..];
    }

    /** An entry comes to be: an abort is owed to its task from here on. */
    method NewEntry(task: nat, killAt: Option<nat>, deadline: nat) returns (e: Entry)
      requires Valid()
      modifies this`records, this`nextId
      ensures Valid() && Loose(log, records, tasks, nextId, e)
      ensures e.task == task && MadeAs(e, Asked(killAt, deadline))
      ensures records == old(records)[task := OweFor(RecordOf(old(records), task), task in finished)]
      ensures WentOn(old(records), lanes, records, lanes)
    {
      hide AllOk, Loose, Truthful, WentOn;
      OwingWentOn(records, lanes, task, task in finished);
      e := if killAt.None? then OneStage(nextId, task, deadline) else TwoStage(nextId, task, killAt.value, deadline);
      NewOk(heap, feed, log, records, tasks, nextId, e, task in finished);
      records := records[task := OweFor(RecordOf(records, task), task in finished)];
      nextId := nextId + 1;
    }

    method DropHeap()
      requires Valid()
      modifies this`heap, this`log, this`records
      ensures Valid() && heap == [] && Total(heap, feed, log) == old(Total(heap, feed, log))
      ensures RecordsLater(old(records), records)
    {
      hide AllOk, Total, Truthful, EndsTrue;
      while heap != []
        invariant Valid() && Total(heap, feed, log) == old(Total(heap, feed, log))
        invariant RecordsLater(old(records), records)
        decreases |heap|
      {
        var e := heap[0];
        DropHeapOk(heap, feed, log, records, tasks, nextId, 0, e.task in finished, now);
        DropHeapTrue(heap, feed, log, lanes, asked, finished, 0, now);
        CallEnds(records, over, e.task, e.task in finished, now);
        ghost var was := records;
        heap := Without(heap, 0);
        log := log + [Dropped(e, true)];
        DropEntry(e);
        RecordsTrans(old(records), was, records);
      }
    }

    method DropFeed()
      requires Valid()
      modifies this`feed, this`log, this`records
      ensures Valid() && feed == [] && Total(heap, feed, log) == old(Total(heap, feed, log))
      ensures RecordsLater(old(records), records)
    {
      hide AllOk, Total, Truthful, EndsTrue;
      while feed != []
        invariant Valid() && Total(heap, feed, log) == old(Total(heap, feed, log))
        invariant RecordsLater(old(records), records)
        decreases |feed|
      {
        var e := feed[0];
        DropFeedOk(heap, feed, log, records, tasks, nextId, e.task in finished, now);
        FeedRestTrue(heap, feed, log, lanes, asked, finished);
        DropLooseTrue(heap, feed[1..], log, lanes, asked, finished, e, now);
        CallEnds(records, over, e.task, e.task in finished, now);
        ghost var was := records;
        feed := feed[1..];
        log := log + [Dropped(e, false)];
        DropEntry(e);
        RecordsTrans(old(records), was, records);
      }
    }

    /** The task's future is dropped at one of its waits: every entry it holds or has queued is dropped, and an
        entry dropped unfired aborts its task. Every entry there ever was has had its abort called for once then, and
        its task's record holds an abort or its actor has ended. */
    method DropAll()
      requires Valid()
      modifies this`heap, this`feed, this`log, this`records
      ensures Valid() && heap == [] && feed == [] && Total(heap, feed, log) == old(Total(heap, feed, log))
      ensures AbortedIds(log) == Total(heap, feed, log) && RecordsLater(old(records), records)
      ensures forall id :: id in tasks ==> AbortedIds(log)[id] == 1 && Enforced(records, over, tasks[id])
    {
      hide AllOk, Truthful, EndsTrue;
      ghost var was := records;
      DropHeap();
      ghost var mid := records;
      DropFeed();
      RecordsTrans(was, mid, records);
      AllSettledAtLast(log, records, tasks, nextId, over, over);
    }

    /** Hands an entry over: a closed feed, its task and what that held being gone, is retried once on the reaper the
        runtime has by then, and a second refusal drops the entry. It ends up queued once, or dropped and its abort
        called for, never both. */
    method FeedReaper(e: Entry, closed: bool, closedAgain: bool, ghost a: Asked)
      requires Valid() && Loose(log, records, tasks, nextId, e) && MadeAs(e, a)
      modifies this`heap, this`feed, this`log, this`records, this`tasks, this`asked
      ensures Valid() && tasks == old(tasks)[e.id := e.task] && asked == old(asked)[e.id := a]
      ensures Total(heap, feed, log) == old(Total(heap, feed, log)) + multiset{e.id}
      ensures closed && closedAgain ==>
                heap == feed == [] && e.id in AbortedIds(log) && Enforced(records, over, e.task)
      ensures closed ==> forall id :: id in old(tasks) ==> Enforced(records, over, tasks[id])
      ensures !closed ==> feed == old(feed) + [e] && heap == old(heap) && log == old(log)
      ensures closed && !closedAgain ==> feed == [e] && heap == []
      ensures RecordsLater(old(records), records)
    {
      hide AllOk, Loose, Total, Truthful, EndsTrue, RecordsLater;
      WentOnSelf(records, lanes);
      if closed {
        Gone(e);
      }
      ghost var was := records;
      if !closed || !closedAgain {
        Queue(e, a);
        return;
      }
      Refuse(e, a);
      RecordsTrans(old(records), was, records);
      AllSettledAtLast(log, records, tasks, nextId, over, over);
    }

    /** The entry is queued. */
    method Queue(e: Entry, ghost a: Asked)
      requires Valid() && Loose(log, records, tasks, nextId, e) && MadeAs(e, a)
      modifies this`feed, this`tasks, this`asked
      ensures Valid() && tasks == old(tasks)[e.id := e.task] && asked == old(asked)[e.id := a]
      ensures Total(heap, feed, log) == old(Total(heap, feed, log)) + multiset{e.id} && feed == old(feed) + [e]
      ensures e.id !in old(tasks)
    {
      hide Sound, Covered, AllHere, Known, Waits, Total, Truthful, EndsTrue, Unheard;
      QueueOk(heap, feed, log, records, tasks, nextId, e);
      NewUnheard(heap, feed, log, tasks, e.id);
      QueueTrue(heap, feed, log, lanes, asked, finished, e, a);
      asked, tasks := asked[e.id := a], tasks[e.id := e.task];
      feed := feed + [e];
    }

    /** The reaper's task is gone, with what it held, while an entry is on its way. */
    method Gone(ghost e: Entry)
      requires Valid() && Loose(log, records, tasks, nextId, e)
      modifies this`heap, this`feed, this`log, this`records
      ensures Valid() && heap == feed == [] && Loose(log, records, tasks, nextId, e)
      ensures Total(heap, feed, log) == old(Total(heap, feed, log))
      ensures forall id :: id in tasks ==> Enforced(records, over, tasks[id])
      ensures RecordsLater(old(records), records)
    {
      hide AllOk, Loose, Total, Truthful, EndsTrue, RecordsLater;
      ghost var was := records;
      DropAll();
      StillLoose(heap, feed, old(log), log, was, records, tasks, nextId, e);
    }

    /** The entry is refused for good: it goes, and that calls for its abort. */
    method Refuse(e: Entry, ghost a: Asked)
      requires Valid() && Loose(log, records, tasks, nextId, e)
      modifies this`log, this`records, this`tasks, this`asked
      ensures Valid() && tasks == old(tasks)[e.id := e.task] && asked == old(asked)[e.id := a]
      ensures e.id !in old(tasks) && e.id in AbortedIds(log) && Enforced(records, over, e.task)
      ensures RecordsLater(old(records), records)
      ensures Total(heap, feed, log) == old(Total(heap, feed, log)) + multiset{e.id}
    {
      hide Sound, Covered, AllHere, Known, Waits, Total, Truthful, Unheard;
      NewUnheard(heap, feed, log, tasks, e.id);
      NewTrue(heap, feed, log, lanes, asked, finished, e.id, a);
      DropLooseTrue(heap, feed, log, lanes, asked[e.id := a], finished, e, now);
      DropLooseOk(heap, feed, log, records, tasks, nextId, e, e.task in finished, now);
      CallEnds(records, over, e.task, e.task in finished, now);
      CallingWentOn(heap, feed, log, records, tasks, nextId, lanes, e.task, e.task in finished, now);
      log := log + [Dropped(e, false)];
      DropEntry(e);
      asked, tasks := asked[e.id := a], tasks[e.id := e.task];
    }

    /** An entry is made and handed over. */
    method Submit(task: nat, killAt: Option<nat>, deadline: nat, closed: bool,
                  closedAgain: bool) returns (ghost id: nat)
      requires Valid()
      modifies this`heap, this`feed, this`log, this`records, this`tasks, this`asked, this`nextId
      ensures Valid() && id !in old(tasks) && tasks == old(tasks)[id := task]
      ensures asked == old(asked)[id := Asked(killAt, deadline)]
      ensures Total(heap, feed, log) == old(Total(heap, feed, log)) + multiset{id}
      ensures !closed ==> log == old(log) && |feed| == |old(feed)| + 1
      ensures WentOn(old(records), lanes, records, lanes)
    {
      hide AllOk, Total, Truthful, EndsTrue, RecordsLater;
      var e := NewEntry(task, killAt, deadline);
      id := e.id;
      ghost var was := records;
      FeedReaper(e, closed, closedAgain, Asked(killAt, deadline));
      RecordsTrans(old(records), was, records);
    }

    /** The task wakes: the next entry of the feed is received, or the earliest of the heap is fired. */
    method WakeUp(received: bool, may: set<nat>)
      requires Valid() && (feed != [] || heap != [])
      modifies this`heap, this`feed, this`now, this`finished, this`over, this`records, this`lanes, this`log
      ensures Valid() && Total(heap, feed, log) == old(Total(heap, feed, log)) && NoDrops(old(log), log)
      ensures EndedAmong(may) && WentOn(old(records), old(lanes), records, lanes)
      ensures Left(true, feed, heap) < old(Left(true, feed, heap)) && (old(feed) == [] ==> feed == [])
    {
      hide AllOk, Total, NoDrops, Truthful, EndsTrue, WentOn;
      if feed != [] && (heap == [] || received) {
        ReceiveNext(may);
      } else {
        FireNext(may);
      }
    }

    /** An entry comes, or the task wakes, if there is anything to wake it. */
    method TakeTurn(turn: Turn, may: set<nat>) returns (ghost id: nat)
      requires Valid() && turn != Cut
      modifies this
      ensures Valid() && NoDrops(old(log), log) && EndedAmong(may)
      ensures if turn.Arrives? then
                && id !in old(tasks) && tasks == old(tasks)[id := turn.task]
                && asked == old(asked)[id := Asked(turn.killAt, turn.deadline)]
              else tasks == old(tasks) && asked == old(asked)
      ensures WentOn(old(records), old(lanes), records, lanes)
    {
      hide AllOk, Total, NoDrops, Truthful, EndsTrue, WentOn;
      NoDropsSelf(log);
      WentOnSelf(records, lanes);
      id := 0;
      if turn.Arrives? {
        id := Submit(turn.task, turn.killAt, turn.deadline, false, false);
      } else if feed != [] || heap != [] {
        WakeUp(turn.received, may);
      }
    }

    /** The loop: receive what the feed brings, act on the earliest entry once it is due, and drain the heap once
        the feed is closed. `script` is what comes, and the feed is closed after it; no actor but those of `may` ends
        meanwhile. Every entry, waiting or still to come, has its abort called for exactly once, and an abort of its
        task is recorded unless its actor has ended; every action is on the earliest entry due; whatever comes to a
        running task comes no earlier than it was submitted for, its abort no earlier after its `Kill` than that was;
        and uncut, no entry is dropped. `ids` are the entries the script brought, as it brought them. */
    method Run(script: seq<Turn>, may: set<nat>) returns (ghost ids: seq<nat>)
      requires Valid()
      modifies this
      ensures Valid() && heap == [] && feed == [] && EndedAmong(may)
      ensures forall id :: id in tasks ==> AbortedIds(log)[id] == 1 && Enforced(records, old(over) + may, tasks[id])
      ensures WentOn(old(records), old(lanes), records, lanes)
      ensures LogTrue(log, lanes, asked, finished) && Refines(log)
      ensures forall k :: 0 <= k < |log| ==> AfterItsKill(log, asked, finished, k) && FiredInTime(log, asked, k)
      ensures TurnsOk(script, old(tasks), old(asked), tasks, asked, ids)
      ensures |ids| <= |script| && (|ids| < |script| ==> script[|ids|] == Cut)
      ensures Cut !in script ==> NoDrops(old(log), log)
    {
      hide AllOk, Total, NoDrops, Truthful, EndsTrue, LogTrue, Refines, AfterItsKill, RecordsLater, LanesLater;
      hide Enforced, AbortedIds, TurnsOk, FiredInTime;
      ids := [];
      NoTurns(script, tasks, asked);
      var open, n := true, 0;
      NoDropsSelf(log);
      WentOnSelf(records, lanes);
      while open || heap != []
        invariant n <= |script| && Valid() && (!open ==> feed == [] && n == |script|)
        invariant Cut !in script[..n] && NoDrops(old(log), log)
        invariant |ids| == n && TurnsOk(script, old(tasks), old(asked), tasks, asked, ids)
        invariant EndedAmong(may) && WentOn(old(records), old(lanes), records, lanes)
        decreases |script| - n, Left(open, feed, heap)
      {
        ghost var before, wasRecords, wasLanes := log, records, lanes;
        WentOnSelf(records, lanes);
        if n < |script| {
          var turn := script[n];
          assert script[..n + 1] == script[..n] + [turn];
          if turn == Cut {
            DropAll();
            RecordsTrans(old(records), wasRecords, records);
            AllSettledAtLast(log, records, tasks, nextId, over, old(over) + may);
            Reading(heap, feed, log, lanes, asked, finished, records, tasks, nextId);
            return;
          }
          ghost var wasTasks, wasAsked := tasks, asked;
          ghost var id := TakeTurn(turn, may);
          OneTurn(script, old(tasks), old(asked), wasTasks, wasAsked, ids, tasks, asked, id);
          ids, n := ids + [id], n + 1;
        } else if feed == [] && open {
          open := false;
        } else {
          var received: bool := *;
          WakeUp(received, may);
        }
        NoDropsSelf(before);
        NoDropsTransitive(old(log), before, log);
        WentOnTrans(old(records), old(lanes), wasRecords, wasLanes, records, lanes);
      }
      assert script[..n] == script;
      AllSettledAtLast(log, records, tasks, nextId, over, old(over) + may);
      Reading(heap, feed, log, lanes, asked, finished, records, tasks, nextId);
    }
  }
}
