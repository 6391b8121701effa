/** What a reaper's log says of the tasks and their lanes is so; whatever comes to a running task comes no earlier than
    it was submitted for, and no abort stage of a two-stage entry but after its `Kill` stage. */
module ReaperTruth {
  import opened Base
  import opened Lane
  import opened Reaper

  function LaneOf(lanes: map<nat, LaneState>, t: nat): LaneState { if t in lanes then lanes[t] else FRESH }

  /** What others do to the lanes meanwhile. */
  predicate LanesLater(a: map<nat, LaneState>, b: map<nat, LaneState>) {
    forall t :: t in a ==> t in b && LaneLater(a[t], b[t])
  }

  /** A task the log says was not running has finished; the lane of one whose `Kill` stage fired holds a `Kill` or
      refuses it. */
  predicate EventTrue(lanes: map<nat, LaneState>, finished: set<nat>, ev: Event) {
    && (ev.Acted? && !ev.running ==> ev.entry.task in finished)
    && (Raises(ev) ==> KillHeard(LaneOf(lanes, ev.entry.task)))
  }

  /** The `Kill` stage of entry `id` fired before the `n`-th event. */
  ghost predicate RaisedBefore(log: seq<Event>, n: nat, id: nat)
    requires n <= |log|
  {
    exists j :: 0 <= j < n && Raises(log[j]) && log[j].entry.id == id
  }

  /** What an entry was submitted with: when its `Kill` is to be raised, if it is, and when its task is aborted. */
  datatype Asked = Asked(killAt: Option<nat>, deadline: nat)

  /** How long after its `Kill` the abort was asked for. */
  function Span(a: Asked): nat { if a.killAt.Some? then Max(0, a.deadline - a.killAt.value) else 0 }

  /** Entry `id` was submitted with two stages. */
  predicate TwoStaged(asked: map<nat, Asked>, id: nat) { id in asked && asked[id].killAt.Some? }

  /** An abort stage of a two-stage entry that came to a running task came after its `Kill` stage. */
  ghost predicate KilledFirst(log: seq<Event>, asked: map<nat, Asked>, k: nat)
    requires k < |log|
  {
    log[k].Acted? && log[k].running && !Raises(log[k]) && TwoStaged(asked, log[k].entry.id) ==>
      RaisedBefore(log, k, log[k].entry.id)
  }

  /** What comes to a running task comes no earlier than it was submitted for, its `Kill` stage with the span the abort
      was asked for after it. */
  predicate Timed(asked: map<nat, Asked>, ev: Event) {
    ev.Acted? && ev.running ==>
      && ev.entry.id in asked
      && var a := asked[ev.entry.id];
         if Raises(ev) then a.killAt.Some? && a.killAt.value <= ev.at && ev.entry.killStage.value.grace == Span(a)
         else a.deadline <= ev.at
  }

  /** The entry is what it was submitted as: with its `Kill` stage pending, or past it and due no earlier. */
  ghost predicate Staged(log: seq<Event>, asked: map<nat, Asked>, e: Entry) {
    && e.id in asked
    && var a := asked[e.id];
       if e.killStage.Some? then
         a.killAt == Some(e.killStage.value.at) && e.killStage.value.grace == Span(a) && e.deadline == a.deadline
       else a.deadline <= e.deadline && (a.killAt.Some? ==> RaisedBefore(log, |log|, e.id))
  }

  ghost predicate AllStaged(log: seq<Event>, asked: map<nat, Asked>, es: seq<Entry>) {
    forall k :: 0 <= k < |es| ==> Staged(log, asked, es[k])
  }

  ghost predicate LogTrue(log: seq<Event>, lanes: map<nat, LaneState>, asked: map<nat, Asked>, finished: set<nat>) {
    forall k :: 0 <= k < |log| ==>
      EventTrue(lanes, finished, log[k]) && Timed(asked, log[k]) && KilledFirst(log, asked, k)
  }

  ghost predicate Truthful(heap: seq<Entry>, feed: seq<Entry>, log: seq<Event>, lanes: map<nat, LaneState>,
                           asked: map<nat, Asked>, finished: set<nat>) {
    LogTrue(log, lanes, asked, finished) && AllStaged(log, asked, heap) && AllStaged(log, asked, feed)
  }

  // ----- Whatever happens, it stays so

  /** Tasks finish and lanes are used. */
  lemma TruthStays(heap: seq<Entry>, feed: seq<Entry>, log: seq<Event>, lanes: map<nat, LaneState>,
                   asked: map<nat, Asked>, finished: set<nat>, lanes': map<nat, LaneState>, finished': set<nat>)
    requires Truthful(heap, feed, log, lanes, asked, finished) && LanesLater(lanes, lanes') && finished <= finished'
    ensures Truthful(heap, feed, log, lanes', asked, finished')
  {
    forall k | 0 <= k < |log|
      ensures EventTrue(lanes', finished', log[k]) && Timed(asked, log[k]) && KilledFirst(log, asked, k)
    {
      assert EventTrue(lanes, finished, log[k]);
      if Raises(log[k]) {
        HeardStays(LaneOf(lanes, log[k].entry.task), LaneOf(lanes', log[k].entry.task), Kill);
      }
    }
  }

  lemma StagedStays(log: seq<Event>, ev: Event, asked: map<nat, Asked>, es: seq<Entry>)
    requires AllStaged(log, asked, es)
    ensures AllStaged(log + [ev], asked, es)
  {
    forall k | 0 <= k < |es| ensures Staged(log + [ev], asked, es[k]) {
      assert Staged(log, asked, es[k]);
      RaisedStays(log, ev, |log|, es[k].id);
    }
  }

  lemma RaisedStays(log: seq<Event>, ev: Event, n: nat, id: nat)
    requires n <= |log|
    ensures RaisedBefore(log, n, id) ==> RaisedBefore(log + [ev], n, id) && RaisedBefore(log + [ev], |log| + 1, id)
  {
    if RaisedBefore(log, n, id) {
      var j :| 0 <= j < n && Raises(log[j]) && log[j].entry.id == id;
      assert (log + [ev])[j] == log[j];
    }
  }

  /** One more event that is so. */
  lemma LogGrowsTrue(log: seq<Event>, ev: Event, lanes: map<nat, LaneState>, asked: map<nat, Asked>, finished: set<nat>)
    requires LogTrue(log, lanes, asked, finished) && EventTrue(lanes, finished, ev) && Timed(asked, ev)
    requires ev.Acted? && ev.running && !Raises(ev) && TwoStaged(asked, ev.entry.id) ==>
               RaisedBefore(log, |log|, ev.entry.id)
    ensures LogTrue(log + [ev], lanes, asked, finished)
  {
    var log' := log + [ev];
    forall k | 0 <= k < |log'|
      ensures EventTrue(lanes, finished, log'[k]) && Timed(asked, log'[k]) && KilledFirst(log', asked, k)
    {
      if k < |log| {
        assert log'[k] == log[k] && EventTrue(lanes, finished, log[k]) && KilledFirst(log, asked, k);
        assert Timed(asked, log[k]);
        if log[k].Acted? {
          RaisedStays(log, ev, k, log[k].entry.id);
        }
      } else if ev.Acted? {
        RaisedStays(log, ev, |log|, ev.entry.id);
      }
    }
  }

  /** An event that is no action. */
  lemma QuietTrue(heap: seq<Entry>, feed: seq<Entry>, log: seq<Event>, ev: Event, lanes: map<nat, LaneState>,
                  asked: map<nat, Asked>, finished: set<nat>)
    requires Truthful(heap, feed, log, lanes, asked, finished) && !ev.Acted?
    ensures Truthful(heap, feed, log + [ev], lanes, asked, finished)
  {
    LogGrowsTrue(log, ev, lanes, asked, finished);
    StagedStays(log, ev, asked, heap);
    StagedStays(log, ev, asked, feed);
  }

  lemma WithoutStaged(log: seq<Event>, asked: map<nat, Asked>, es: seq<Entry>, k: nat)
    requires k < |es| && AllStaged(log, asked, es)
    ensures AllStaged(log, asked, Without(es, k))
  {
    forall j | 0 <= j < |Without(es, k)| ensures Staged(log, asked, Without(es, k)[j]) {
      assert Without(es, k)[j] == es[if j < k then j else j + 1];
    }
  }

  lemma AppendStaged(log: seq<Event>, asked: map<nat, Asked>, es: seq<Entry>, e: Entry)
    requires AllStaged(log, asked, es) && Staged(log, asked, e)
    ensures AllStaged(log, asked, es + [e])
  {
    forall j | 0 <= j < |es + [e]| ensures Staged(log, asked, (es + [e])[j]) {
      assert j < |es| ==> (es + [e])[j] == es[j];
    }
  }

  function RaiseKillOn(lanes: map<nat, LaneState>, t: nat): map<nat, LaneState> {
    lanes[t := TryRaise(LaneOf(lanes, t), Kill).0]
  }

  lemma RaiseKillLater(lanes: map<nat, LaneState>, t: nat)
    ensures LanesLater(lanes, RaiseKillOn(lanes, t)) && KillHeard(LaneOf(RaiseKillOn(lanes, t), t))
  {
    RaiseIsLater(LaneOf(lanes, t), Kill);
    KillIsRefusedOrStands(LaneOf(lanes, t));
  }

  /** The `Kill` stage of `heap[k]` fires: it is raised on the task's lane. */
  lemma KillFiresTrue(heap: seq<Entry>, feed: seq<Entry>, log: seq<Event>, lanes: map<nat, LaneState>,
                      asked: map<nat, Asked>, finished: set<nat>, k: nat, now: nat)
    requires Truthful(heap, feed, log, lanes, asked, finished) && k < |heap| && heap[k].killStage.Some?
    requires Due(heap[k]) <= now
    ensures var heap', log' := Without(heap, k) + [AfterKill(heap[k], now)], log + [Acted(heap[k], now, true)];
            Truthful(heap', feed, log', RaiseKillOn(lanes, heap[k].task), asked, finished)
  {
    var e, rest, left, ev := heap[k], Without(heap, k), AfterKill(heap[k], now), Acted(heap[k], now, true);
    var lanes' := RaiseKillOn(lanes, e.task);
    RaiseKillLater(lanes, e.task);
    TruthStays(heap, feed, log, lanes, asked, finished, lanes', finished);
    LogGrowsTrue(log, ev, lanes', asked, finished);
    WithoutStaged(log, asked, heap, k);
    StagedStays(log, ev, asked, rest);
    StagedStays(log, ev, asked, feed);
    assert Raises((log + [ev])[|log|]);
    AppendStaged(log + [ev], asked, rest, left);
  }

  /** `heap[k]` ends by firing. */
  lemma AbortFiresTrue(heap: seq<Entry>, feed: seq<Entry>, log: seq<Event>, lanes: map<nat, LaneState>,
                       asked: map<nat, Asked>, finished: set<nat>, k: nat, now: nat)
    requires Truthful(heap, feed, log, lanes, asked, finished) && k < |heap|
    requires (heap[k].task !in finished ==> heap[k].killStage.None?) && Due(heap[k]) <= now
    ensures var e := heap[k];
            var log' := log + [Acted(e, now, e.task !in finished)] + [AbortCalled(e.id, e.task, now)];
            Truthful(Without(heap, k), feed, log', lanes, asked, finished)
  {
    var e, rest := heap[k], Without(heap, k);
    var ev := Acted(e, now, e.task !in finished);
    assert Staged(log, asked, e);
    LogGrowsTrue(log, ev, lanes, asked, finished);
    WithoutStaged(log, asked, heap, k);
    StagedStays(log, ev, asked, rest);
    StagedStays(log, ev, asked, feed);
    QuietTrue(rest, feed, log + [ev], AbortCalled(e.id, e.task, now), lanes, asked, finished);
  }

  /** `heap[k]` is dropped. */
  lemma DropHeapTrue(heap: seq<Entry>, feed: seq<Entry>, log: seq<Event>, lanes: map<nat, LaneState>,
                     asked: map<nat, Asked>, finished: set<nat>, k: nat, now: nat)
    requires Truthful(heap, feed, log, lanes, asked, finished) && k < |heap|
    ensures var e := heap[k];
            var log' := log + [Dropped(e, true)] + [AbortCalled(e.id, e.task, now)];
            Truthful(Without(heap, k), feed, log', lanes, asked, finished)
  {
    var e, rest := heap[k], Without(heap, k);
    WithoutStaged(log, asked, heap, k);
    QuietTrue(rest, feed, log, Dropped(e, true), lanes, asked, finished);
    QuietTrue(rest, feed, log + [Dropped(e, true)], AbortCalled(e.id, e.task, now), lanes, asked, finished);
  }

  /** An entry in neither is dropped. */
  lemma DropLooseTrue(heap: seq<Entry>, feed: seq<Entry>, log: seq<Event>, lanes: map<nat, LaneState>,
                      asked: map<nat, Asked>, finished: set<nat>, e: Entry, now: nat)
    requires Truthful(heap, feed, log, lanes, asked, finished)
    ensures var log' := log + [Dropped(e, false)] + [AbortCalled(e.id, e.task, now)];
            Truthful(heap, feed, log', lanes, asked, finished)
  {
    QuietTrue(heap, feed, log, Dropped(e, false), lanes, asked, finished);
    QuietTrue(heap, feed, log + [Dropped(e, false)], AbortCalled(e.id, e.task, now), lanes, asked, finished);
  }

  lemma FeedRestTrue(heap: seq<Entry>, feed: seq<Entry>, log: seq<Event>, lanes: map<nat, LaneState>,
                     asked: map<nat, Asked>, finished: set<nat>)
    requires Truthful(heap, feed, log, lanes, asked, finished) && feed != []
    ensures Truthful(heap, feed[1..], log, lanes, asked, finished) && Staged(log, asked, feed[0])
  {
    assert forall k :: 0 <= k < |feed[1..]| ==> feed[1..][k] == feed[k + 1];
  }

  /** The first entry of the feed is received. */
  lemma ReceiveTrue(heap: seq<Entry>, feed: seq<Entry>, log: seq<Event>, lanes: map<nat, LaneState>,
                    asked: map<nat, Asked>, finished: set<nat>)
    requires Truthful(heap, feed, log, lanes, asked, finished) && feed != []
    ensures Truthful(heap + [feed[0]], feed[1..], log + [Received(feed[0])], lanes, asked, finished)
  {
    FeedRestTrue(heap, feed, log, lanes, asked, finished);
    AppendStaged(log, asked, heap, feed[0]);
    QuietTrue(heap + [feed[0]], feed[1..], log, Received(feed[0]), lanes, asked, finished);
  }

  /** A new entry is made as it is submitted: both its instants, and the span between them. */
  predicate MadeAs(e: Entry, a: Asked) {
    && !e.fired && e.deadline == a.deadline
    && e.killStage == if a.killAt.None? then None else Some(KillStage(a.killAt.value, Span(a)))
  }

  /** No entry of the heap or the feed, and no action, is of `id`. */
  predicate Unheard(heap: seq<Entry>, feed: seq<Entry>, log: seq<Event>, id: nat) {
    && (forall k :: 0 <= k < |heap| ==> heap[k].id != id) && (forall k :: 0 <= k < |feed| ==> feed[k].id != id)
    && (forall k :: 0 <= k < |log| && log[k].Acted? ==> log[k].entry.id != id)
  }

  /** A new entry is known of. */
  lemma NewTrue(heap: seq<Entry>, feed: seq<Entry>, log: seq<Event>, lanes: map<nat, LaneState>,
                asked: map<nat, Asked>, finished: set<nat>, id: nat, a: Asked)
    requires Truthful(heap, feed, log, lanes, asked, finished) && Unheard(heap, feed, log, id)
    ensures Truthful(heap, feed, log, lanes, asked[id := a], finished)
  {
    var asked' := asked[id := a];
    forall k | 0 <= k < |log|
      ensures EventTrue(lanes, finished, log[k]) && Timed(asked', log[k]) && KilledFirst(log, asked', k)
    {
      assert EventTrue(lanes, finished, log[k]) && Timed(asked, log[k]) && KilledFirst(log, asked, k);
    }
    forall k | 0 <= k < |heap| ensures Staged(log, asked', heap[k]) {
      assert Staged(log, asked, heap[k]);
    }
    forall k | 0 <= k < |feed| ensures Staged(log, asked', feed[k]) {
      assert Staged(log, asked, feed[k]);
    }
  }

  /** ... and is queued behind the feed. */
  lemma QueueTrue(heap: seq<Entry>, feed: seq<Entry>, log: seq<Event>, lanes: map<nat, LaneState>,
                  asked: map<nat, Asked>, finished: set<nat>, e: Entry, a: Asked)
    requires Truthful(heap, feed, log, lanes, asked, finished) && Unheard(heap, feed, log, e.id) && MadeAs(e, a)
    ensures Truthful(heap, feed + [e], log, lanes, asked[e.id := a], finished)
  {
    NewTrue(heap, feed, log, lanes, asked, finished, e.id, a);
    AppendStaged(log, asked[e.id := a], feed, e);
  }

  /** An abort called for by the firing of a two-stage entry has the entry's `Kill` stage before it, unless its task had
      finished. */
  ghost predicate AfterItsKill(log: seq<Event>, asked: map<nat, Asked>, finished: set<nat>, k: nat)
    requires k < |log|
  {
    log[k].AbortCalled? && k > 0 && log[k - 1].Acted? && TwoStaged(asked, log[k].id) ==>
      log[k].task in finished || RaisedBefore(log, k - 1, log[k].id)
  }

  lemma KillsComeFirst(log: seq<Event>, lanes: map<nat, LaneState>, asked: map<nat, Asked>, finished: set<nat>)
    requires LogTrue(log, lanes, asked, finished) && Caused(log)
    ensures forall k :: 0 <= k < |log| ==> AfterItsKill(log, asked, finished, k)
  {
    forall k | 0 <= k < |log| ensures AfterItsKill(log, asked, finished, k) {
      assert CausedAt(log, k);
      if k > 0 {
        assert EventTrue(lanes, finished, log[k - 1]) && KilledFirst(log, asked, k - 1);
      }
    }
  }

  /** Whatever fires on a running task fires in time: a `Kill` no earlier than it was submitted for, an abort no earlier
      than it was, and not before its `Kill`, nor earlier after it than the span between the two as submitted. */
  ghost predicate FiredInTime(log: seq<Event>, asked: map<nat, Asked>, k: nat)
    requires k < |log|
  {
    log[k].Acted? && log[k].running ==>
      && log[k].entry.id in asked
      && var a := asked[log[k].entry.id];
         if Raises(log[k]) then a.killAt.Some? && a.killAt.value <= log[k].at
         else
           && a.deadline <= log[k].at && (a.killAt.Some? ==> RaisedBefore(log, k, log[k].entry.id))
           && forall j :: 0 <= j < k && Raises(log[j]) && log[j].entry.id == log[k].entry.id ==>
                            a.killAt.Some?
                                && log[j].at + Min(Max(0, a.deadline - a.killAt.value), FAR_FUTURE) <= log[k].at
  }

  lemma AllInTime(log: seq<Event>, lanes: map<nat, LaneState>, asked: map<nat, Asked>, finished: set<nat>)
    requires LogTrue(log, lanes, asked, finished) && GraceKept(log)
    ensures forall k :: 0 <= k < |log| ==> FiredInTime(log, asked, k)
  {
    forall k | 0 <= k < |log| ensures FiredInTime(log, asked, k) {
      assert Timed(asked, log[k]) && KilledFirst(log, asked, k);
      forall j | 0 <= j < k && log[k].Acted? && log[k].running && Raises(log[j]) && log[j].entry.id == log[k].entry.id
        ensures var a := asked[log[k].entry.id];
                a.killAt.Some? && log[j].at + Min(Max(0, a.deadline - a.killAt.value), FAR_FUTURE) <= log[k].at
      {
        assert GraceBetween(log, j, k) && Timed(asked, log[j]);
      }
    }
  }
}
