/** The reaper: one task per runtime that holds abort deadlines and acts on the earliest one due. */
module Reaper {
  import opened Base

  /** A pending first stage: when `Kill` is raised, and the grace the abort follows it by. */
  datatype KillStage = KillStage(at: nat, grace: nat)

  /** One pending abort deadline. `id` tells entries apart, `task` is the task it ends, through that task's record;
      `fired` keeps its drop from aborting again. */
  datatype Entry = Entry(id: nat, task: nat, killStage: Option<KillStage>, deadline: nat, fired: bool)

  function OneStage(id: nat, task: nat, deadline: nat): Entry { Entry(id, task, None, deadline, false) }

  function TwoStage(id: nat, task: nat, killAt: nat, deadline: nat): Entry {
    Entry(id, task, Some(KillStage(killAt, Max(0, deadline - killAt))), deadline, false)
  }

  /** The instant the reaper acts on the entry next. */
  function Due(e: Entry): nat { if e.killStage.Some? then e.killStage.value.at else e.deadline }

  function StagesLeft(e: Entry): nat { if e.killStage.Some? then 2 else 1 }

  function AllStages(es: seq<Entry>): nat { if es == [] then 0 else StagesLeft(es[0]) + AllStages(es[1..]) }

  /** What is left of a two-stage entry whose `Kill` fires at `now`. */
  function AfterKill(e: Entry, now: nat): Entry
    requires e.killStage.Some?
  {
    e.(killStage := None, deadline := Max(e.deadline, SaturatingDeadline(now, e.killStage.value.grace)))
  }

  // ----- What a reaper did

  /** An entry came from the feed into the heap; the reaper acted on one of the heap, whose task was `running` or not;
      one was dropped, out of the heap or out of the feed; an abort was called on a record. */
  datatype Event =
    | Received(entry: Entry)
    | Acted(entry: Entry, at: nat, running: bool)
    | Dropped(entry: Entry, held: bool)
    | AbortCalled(id: nat, task: nat, at: nat)

  /** The `Kill` stage of a running task, which leaves the abort stage. */
  predicate Raises(ev: Event) { ev.Acted? && ev.running && ev.entry.killStage.Some? }

  /** What one event makes of the heap. */
  function AfterEvent(m: multiset<Entry>, ev: Event): multiset<Entry> {
    match ev
    case Received(e) => m + multiset{e}
    case Acted(e, at, _) => m - multiset{e} + (if Raises(ev) then multiset{AfterKill(e, at)} else multiset{})
    case Dropped(e, held) => if held then m - multiset{e} else m
    case AbortCalled(_, _, _) => m
  }

  /** The heap a log leads to. */
  function Replay(log: seq<Event>): multiset<Entry> {
    if log == [] then multiset{} else AfterEvent(Replay(log[..|log| - 1]), log[|log| - 1])
  }

  /** The rule: act on an entry of the heap that is due, with none due before it. */
  predicate ActsOnEarliest(m: multiset<Entry>, ev: Event) {
    ev.Acted? ==> ev.entry in m && Due(ev.entry) <= ev.at && forall x :: x in m ==> Due(ev.entry) <= Due(x)
  }

  /** Every action of the log follows the rule, on the heap the log had led to. */
  predicate Refines(log: seq<Event>) { forall k :: 0 <= k < |log| ==> FollowsAt(log, k) }

  predicate FollowsAt(log: seq<Event>, k: nat)
    requires k < |log|
  {
    ActsOnEarliest(Replay(log[..k]), log[k])
  }

  lemma LogGrows(log: seq<Event>, ev: Event)
    ensures Replay(log + [ev]) == AfterEvent(Replay(log), ev)
    ensures AbortedIds(log + [ev]) == AbortedIds(log) + (if ev.AbortCalled? then multiset{ev.id} else multiset{})
    ensures Refines(log) && ActsOnEarliest(Replay(log), ev) ==> Refines(log + [ev])
    ensures Caused(log) && (ev.AbortCalled? ==> log != [] && Causes(log[|log| - 1], ev)) ==> Caused(log + [ev])
  {
    var log' := log + [ev];
    assert log'[..|log'| - 1] == log;
    if Refines(log) && ActsOnEarliest(Replay(log), ev) {
      forall k | 0 <= k < |log'| ensures FollowsAt(log', k) {
        assert log'[..k] == log[..k];
        assert k < |log| ==> FollowsAt(log, k);
      }
    }
    if Caused(log) && (ev.AbortCalled? ==> log != [] && Causes(log[|log| - 1], ev)) {
      forall k | 0 <= k < |log'| ensures CausedAt(log', k) {
        assert k < |log| ==> CausedAt(log, k);
      }
    }
  }

  /** The entries that called for an abort, once per time they did. */
  function AbortedIds(log: seq<Event>): multiset<nat> {
    if log == [] then multiset{}
    else
      var last := log[|log| - 1];
      AbortedIds(log[..|log| - 1]) + (if last.AbortCalled? then multiset{last.id} else multiset{})
  }

  /** An entry calls for its abort when its last stage fires or when it is dropped. */
  predicate Causes(cause: Event, ev: Event)
    requires ev.AbortCalled?
  {
    ((cause.Acted? && !Raises(cause)) || cause.Dropped?) && cause.entry.id == ev.id && cause.entry.task == ev.task
  }

  predicate Caused(log: seq<Event>) { forall k :: 0 <= k < |log| ==> CausedAt(log, k) }

  predicate CausedAt(log: seq<Event>, k: nat)
    requires k < |log|
  {
    log[k].AbortCalled? ==> k > 0 && Causes(log[k - 1], log[k])
  }

  /** A running task is aborted by a firing no earlier than its whole grace (up to the thirty-year horizon) after its
      `Kill` stage fired. */
  predicate GraceKept(log: seq<Event>) { forall k, m :: 0 <= k < m < |log| ==> GraceBetween(log, k, m) }

  predicate GraceBetween(log: seq<Event>, k: nat, m: nat)
    requires k < m < |log|
  {
    Raises(log[k]) && log[m].Acted? && log[m].running && log[k].entry.id == log[m].entry.id ==>
      log[k].at + Min(log[k].entry.killStage.value.grace, FAR_FUTURE) <= log[m].at
  }

  /** The abort stage left to an entry whose `Kill` was raised keeps the grace. */
  predicate KeepsGrace(log: seq<Event>, e: Entry) {
    forall k :: 0 <= k < |log| && Raises(log[k]) && log[k].entry.id == e.id ==>
                  e.killStage.None? && log[k].at + Min(log[k].entry.killStage.value.grace, FAR_FUTURE) <= e.deadline
  }

  /** An entry that waits is unfired and keeps its grace. */
  predicate Waits(log: seq<Event>, e: Entry) { !e.fired && KeepsGrace(log, e) }

  predicate AllWait(log: seq<Event>, es: seq<Entry>) { forall k :: 0 <= k < |es| ==> Waits(log, es[k]) }

  // ----- Sequences of entries

  function Ids(es: seq<Entry>): multiset<nat> {
    if es == [] then multiset{} else multiset{es[0].id} + Ids(es[1..])
  }

  lemma {:induction false} WithoutStages(es: seq<Entry>, k: nat)
    requires k < |es|
    ensures AllStages(es) == AllStages(Without(es, k)) + StagesLeft(es[k])
  {
    if k == 0 {
      assert Without(es, 0) == es[1..];
    } else {
      WithoutStages(es[1..], k - 1);
      assert Without(es, k)[1..] == Without(es[1..], k - 1);
    }
  }

  lemma {:induction false} WithoutIds(es: seq<Entry>, k: nat)
    requires k < |es|
    ensures Ids(es) == Ids(Without(es, k)) + multiset{es[k].id}
    ensures AllStages(es) == AllStages(Without(es, k)) + StagesLeft(es[k])
  {
    WithoutStages(es, k);
    if k == 0 {
      assert Without(es, 0) == es[1..];
    } else {
      WithoutIds(es[1..], k - 1);
      assert Without(es, k)[1..] == Without(es[1..], k - 1);
    }
  }

  lemma WithoutBag(es: seq<Entry>, k: nat)
    requires k < |es|
    ensures multiset(Without(es, k)) == multiset(es) - multiset{es[k]}
  {
    assert es == es[..k] + [es[k]] + es[k + 1..];
  }

  lemma {:induction false} AppendIds(es: seq<Entry>, e: Entry)
    ensures Ids(es + [e]) == Ids(es) + multiset{e.id}
    ensures AllStages(es + [e]) == AllStages(es) + StagesLeft(e)
  {
    if es == [] {
      assert es + [e] == [e];
      assert [e][1..] == [];
    } else {
      AppendIds(es[1..], e);
      assert (es + [e])[1..] == es[1..] + [e];
    }
  }

  lemma {:induction false} IdOf(es: seq<Entry>, k: nat)
    requires k < |es|
    ensures es[k].id in Ids(es)
  {
    WithoutIds(es, k);
  }

  /** The heap's pop: any entry that no other is due before. */
  method PopEarliest(heap: seq<Entry>) returns (e: Entry, rest: seq<Entry>, ghost k: nat)
    requires heap != []
    ensures k < |heap| && e == heap[k] && rest == Without(heap, k)
    ensures forall x :: x in heap ==> Due(e) <= Due(x)
  {
    var best := 0;
    for i := 1 to |heap|
      invariant 0 <= best < |heap|
      invariant forall j :: 0 <= j < i ==> Due(heap[best]) <= Due(heap[j])
    {
      if Due(heap[i]) < Due(heap[best]) {
        best := i;
      }
    }
    e, rest, k := heap[best], heap[..best] + heap[best + 1..], best;
  }

  // ----- Every entry once

  predicate Unique(ids: multiset<nat>) { forall i :: i in ids ==> ids[i] <= 1 }

  /** Every entry the reaper has or had, by where it is. */
  function Total(heap: seq<Entry>, feed: seq<Entry>, log: seq<Event>): multiset<nat> {
    Ids(heap) + Ids(feed) + AbortedIds(log)
  }

  predicate Sound(heap: seq<Entry>, feed: seq<Entry>, log: seq<Event>) {
    && AllWait(log, heap) && AllWait(log, feed) && Unique(Total(heap, feed, log))
    && multiset(heap) == Replay(log) && Refines(log) && Caused(log) && GraceKept(log)
  }

  /** An event of one entry concerns no entry with another id. */
  lemma OthersWait(log: seq<Event>, ev: Event, es: seq<Entry>)
    requires AllWait(log, es) && (Raises(ev) ==> ev.entry.id !in Ids(es))
    ensures AllWait(log + [ev], es)
  {
    forall k | 0 <= k < |es| ensures Waits(log + [ev], es[k]) {
      IdOf(es, k);
      assert Waits(log, es[k]);
    }
  }

  lemma WithoutWaits(log: seq<Event>, es: seq<Entry>, k: nat)
    requires k < |es| && AllWait(log, es)
    ensures AllWait(log, Without(es, k))
  {
    forall j | 0 <= j < |Without(es, k)| ensures Waits(log, Without(es, k)[j]) {
      assert Without(es, k)[j] == es[if j < k then j else j + 1];
    }
  }

  lemma AppendWaits(log: seq<Event>, es: seq<Entry>, e: Entry)
    requires AllWait(log, es) && Waits(log, e)
    ensures AllWait(log, es + [e])
  {
    forall j | 0 <= j < |es + [e]| ensures Waits(log, (es + [e])[j]) {
      assert j < |es| ==> (es + [e])[j] == es[j];
    }
  }

  /** An entry in the heap is nowhere else. */
  lemma OnlyThere(heap: seq<Entry>, feed: seq<Entry>, log: seq<Event>, k: nat)
    requires k < |heap| && Unique(Total(heap, feed, log))
    ensures var id := heap[k].id; id !in Ids(Without(heap, k)) && id !in Ids(feed) && id !in AbortedIds(log)
  {
    WithoutIds(heap, k);
    assert heap[k].id in Total(heap, feed, log);
  }

  lemma GraceGrows(log: seq<Event>, ev: Event)
    requires GraceKept(log)
    requires ev.Acted? && ev.running ==>
               forall k :: 0 <= k < |log| && Raises(log[k]) && log[k].entry.id == ev.entry.id ==>
                             log[k].at + Min(log[k].entry.killStage.value.grace, FAR_FUTURE) <= ev.at
    ensures GraceKept(log + [ev])
  {
    forall k, m | 0 <= k < m < |log + [ev]| ensures GraceBetween(log + [ev], k, m) {
      assert m < |log| ==> GraceBetween(log, k, m);
    }
  }

  /** Moving one entry between the parts of the total leaves the total. */
  lemma Regroup(rest: multiset<nat>, id: nat, feed: multiset<nat>, aborted: multiset<nat>)
    ensures (rest + multiset{id}) + feed + aborted == rest + feed + (aborted + multiset{id})
    ensures (rest + multiset{id}) + feed + aborted == rest + (multiset{id} + feed) + aborted
  {
  }

  /** An action on `heap[k]` that is due and that none is due before. */
  predicate Actable(heap: seq<Entry>, k: nat, now: nat) {
    k < |heap| && Due(heap[k]) <= now && forall x :: x in heap ==> Due(heap[k]) <= Due(x)
  }

  lemma ActionFits(heap: seq<Entry>, feed: seq<Entry>, log: seq<Event>, k: nat, now: nat, running: bool)
    requires Sound(heap, feed, log) && Actable(heap, k, now)
    ensures var log' := log + [Acted(heap[k], now, running)];
            Refines(log') && Caused(log') && GraceKept(log') && AbortedIds(log') == AbortedIds(log)
  {
    var ev := Acted(heap[k], now, running);
    assert ActsOnEarliest(Replay(log), ev) by {
      assert heap[k] in multiset(heap);
      assert forall x :: x in Replay(log) ==> x in heap;
    }
    LogGrows(log, ev);
    assert Waits(log, heap[k]);
    GraceGrows(log, ev);
  }

  /** The `Kill` stage of `heap[k]` fires. */
  lemma {:induction false} KillFires(heap: seq<Entry>, feed: seq<Entry>, log: seq<Event>, k: nat, now: nat)
    requires Sound(heap, feed, log) && Actable(heap, k, now) && heap[k].killStage.Some?
    ensures var heap', log' := Without(heap, k) + [AfterKill(heap[k], now)], log + [Acted(heap[k], now, true)];
            && Sound(heap', feed, log') && Total(heap', feed, log') == Total(heap, feed, log)
            && AllStages(heap') == AllStages(heap) - 1
  {
    var e, rest, left := heap[k], Without(heap, k), AfterKill(heap[k], now);
    var ev := Acted(e, now, true);
    var log' := log + [ev];
    ActionFits(heap, feed, log, k, now, true);
    assert AllWait(log', rest + [left]) && AllWait(log', feed) by {
      OnlyThere(heap, feed, log, k);
      WithoutWaits(log, heap, k);
      OthersWait(log, ev, rest);
      OthersWait(log, ev, feed);
      assert Waits(log, e);
      assert Waits(log', left);
      AppendWaits(log', rest, left);
    }
    assert Ids(rest + [left]) == Ids(heap) && AllStages(rest + [left]) == AllStages(heap) - 1 by {
      WithoutIds(heap, k);
      AppendIds(rest, left);
    }
    assert multiset(rest + [left]) == Replay(log') by {
      WithoutBag(heap, k);
      LogGrows(log, ev);
    }
  }

  /** `heap[k]` ends by firing: the action, and the one call for its abort. */
  lemma {:induction false} AbortFires(heap: seq<Entry>, feed: seq<Entry>, log: seq<Event>, k: nat, now: nat,
                                      running: bool)
    requires Sound(heap, feed, log) && Actable(heap, k, now) && (running ==> heap[k].killStage.None?)
    ensures var e := heap[k];
            var heap', log' := Without(heap, k), log + [Acted(e, now, running)] + [AbortCalled(e.id, e.task, now)];
            && Sound(heap', feed, log') && Total(heap', feed, log') == Total(heap, feed, log)
            && AllStages(heap') < AllStages(heap)
  {
    var e, rest := heap[k], Without(heap, k);
    var ev, call := Acted(e, now, running), AbortCalled(e.id, e.task, now);
    var log1, log2 := log + [ev], log + [ev] + [call];
    ActionFits(heap, feed, log, k, now, running);
    EndsOnce(log, log1, call);
    assert multiset(rest) == Replay(log1) by {
      WithoutBag(heap, k);
      LogGrows(log, ev);
    }
    WithoutWaits(log, heap, k);
    OthersWait(log, ev, rest);
    OthersWait(log, ev, feed);
    OthersWait(log1, call, rest);
    OthersWait(log1, call, feed);
    WithoutIds(heap, k);
    Regroup(Ids(rest), e.id, Ids(feed), AbortedIds(log));
  }

  /** A call for an abort after its cause. */
  lemma EndsOnce(log: seq<Event>, log1: seq<Event>, call: Event)
    requires call.AbortCalled? && log1 != [] && Causes(log1[|log1| - 1], call)
    requires Refines(log1) && Caused(log1) && GraceKept(log1) && AbortedIds(log1) == AbortedIds(log)
    ensures Refines(log1 + [call]) && Caused(log1 + [call]) && GraceKept(log1 + [call])
    ensures Replay(log1 + [call]) == Replay(log1) && AbortedIds(log1 + [call]) == AbortedIds(log) + multiset{call.id}
  {
    LogGrows(log1, call);
    GraceGrows(log1, call);
  }

  /** `heap[k]` is dropped unfired. */
  lemma {:induction false} DropHeld(heap: seq<Entry>, feed: seq<Entry>, log: seq<Event>, k: nat, now: nat)
    requires Sound(heap, feed, log) && k < |heap|
    ensures var e := heap[k];
            var heap', log' := Without(heap, k), log + [Dropped(e, true)] + [AbortCalled(e.id, e.task, now)];
            Sound(heap', feed, log') && Total(heap', feed, log') == Total(heap, feed, log)
  {
    var e, rest := heap[k], Without(heap, k);
    var ev, call := Dropped(e, true), AbortCalled(e.id, e.task, now);
    var log1 := log + [ev];
    LogGrows(log, ev);
    GraceGrows(log, ev);
    EndsOnce(log, log1, call);
    assert multiset(rest) == Replay(log1) by {
      WithoutBag(heap, k);
    }
    WithoutWaits(log, heap, k);
    OthersWait(log, ev, rest);
    OthersWait(log, ev, feed);
    OthersWait(log1, call, rest);
    OthersWait(log1, call, feed);
    WithoutIds(heap, k);
    Regroup(Ids(rest), e.id, Ids(feed), AbortedIds(log));
  }

  /** An entry that is in neither, and unfired, is dropped: refused by a closed feed, or taken out of the queue. */
  lemma DropLoose(heap: seq<Entry>, feed: seq<Entry>, log: seq<Event>, e: Entry, now: nat)
    requires Sound(heap, feed, log) && e.id !in Total(heap, feed, log)
    ensures var log' := log + [Dropped(e, false)] + [AbortCalled(e.id, e.task, now)];
            Sound(heap, feed, log') && Total(heap, feed, log') == Total(heap, feed, log) + multiset{e.id}
  {
    var ev, call := Dropped(e, false), AbortCalled(e.id, e.task, now);
    var log1 := log + [ev];
    LogGrows(log, ev);
    GraceGrows(log, ev);
    EndsOnce(log, log1, call);
    OthersWait(log, ev, heap);
    OthersWait(log, ev, feed);
    OthersWait(log1, call, heap);
    OthersWait(log1, call, feed);
    assert Total(heap, feed, log1 + [call]) == Total(heap, feed, log) + multiset{e.id};
  }

  /** Without the first of the feed. */
  lemma FeedRest(heap: seq<Entry>, feed: seq<Entry>, log: seq<Event>)
    requires Sound(heap, feed, log) && feed != []
    ensures Sound(heap, feed[1..], log) && feed[0].id !in Total(heap, feed[1..], log)
    ensures Total(heap, feed, log) == Total(heap, feed[1..], log) + multiset{feed[0].id}
  {
    var rest := Total(heap, feed[1..], log);
    assert Total(heap, feed, log) == rest + multiset{feed[0].id};
    assert (rest + multiset{feed[0].id})[feed[0].id] <= 1;
    forall i | i in rest ensures rest[i] <= 1 {
      assert i in rest + multiset{feed[0].id};
    }
    forall k | 0 <= k < |feed[1..]| ensures Waits(log, feed[1..][k]) {
      assert feed[1..][k] == feed[k + 1];
    }
  }

  /** The first entry of the feed is received. */
  lemma Receive(heap: seq<Entry>, feed: seq<Entry>, log: seq<Event>)
    requires Sound(heap, feed, log) && feed != []
    ensures var log' := log + [Received(feed[0])];
            && Sound(heap + [feed[0]], feed[1..], log')
            && Total(heap + [feed[0]], feed[1..], log') == Total(heap, feed, log)
  {
    var e, rest, ev := feed[0], feed[1..], Received(feed[0]);
    var log' := log + [ev];
    FeedRest(heap, feed, log);
    LogGrows(log, ev);
    GraceGrows(log, ev);
    assert AllWait(log', heap + [e]) && AllWait(log', rest) by {
      assert Waits(log, e);
      AppendWaits(log, heap, e);
      OthersWait(log, ev, heap + [e]);
      OthersWait(log, ev, rest);
    }
    assert Total(heap + [e], rest, log') == Total(heap, feed, log) by {
      AppendIds(heap, e);
      Regroup(Ids(heap), e.id, Ids(rest), AbortedIds(log));
    }
  }

  /** An entry of its own is queued behind the feed. */
  lemma OneMore(heap: seq<Entry>, feed: seq<Entry>, log: seq<Event>, e: Entry)
    requires Sound(heap, feed, log) && e.id !in Total(heap, feed, log) && Waits(log, e)
    ensures Sound(heap, feed + [e], log)
    ensures Total(heap, feed + [e], log) == Total(heap, feed, log) + multiset{e.id}
  {
    AppendIds(feed, e);
    AppendWaits(log, feed, e);
    hide AllWait, Refines, Caused, GraceKept, Waits, Ids, AbortedIds;
    assert Total(heap, feed + [e], log) == Total(heap, feed, log) + multiset{e.id};
  }
}
