/** More of the time-driver cache over every run: when it starts over, what a thread keeps, and what a call is told of a
    runtime that has ended. */
module TimeRuns {
  import opened Base
  import opened TimeProbe

  /** A step of one thread leaves the calls of the others alone, and what is so of the runtimes; and only one that has
      the lock to clear the table adds to the past. */
  lemma OneCall(s: State, t: nat)
    requires t in s.calls
    ensures var s' := StepThread(s, t);
            && t in s'.calls && s'.calls == s.calls[t := s'.calls[t]] && s'.ended == s.ended
            && (!s.calls[t].pc.Lock? && !s.calls[t].pc.Cleared? ==> s'.past == s.past && !s'.calls[t].pc.Cleared?)
  {
    match s.calls[t].pc
    case Look => LookCall(s, t);
    case Store(state, kept, gen) => StoreCall(s, t, state, kept, gen);
    case _ => hide LookStep, StoreStep;
  }

  lemma LookCall(s: State, t: nat)
    requires t in s.calls
    ensures var s' := LookStep(s, t);
            && t in s'.calls && s'.calls == s.calls[t := s'.calls[t]] && s'.ended == s.ended
            && s'.past == s.past && !s'.calls[t].pc.Cleared?
  {
  }

  lemma StoreCall(s: State, t: nat, state: TimerState, kept: TimerState, gen: nat)
    requires t in s.calls
    ensures var s' := StoreStep(s, t, state, kept, gen);
            && t in s'.calls && s'.calls == s.calls[t := s'.calls[t]] && s'.ended == s.ended
            && s'.past == s.past && !s'.calls[t].pc.Cleared?
  {
  }

  // ----- When the table starts over

  predicate FullOnes(s: State) {
    && (forall g :: 0 <= g < |s.past| ==> |s.past[g]| == TABLE_LIMIT)
    && (forall t :: t in s.calls && s.calls[t].pc.Cleared? ==> |s.calls[t].pc.full| == TABLE_LIMIT)
  }

  lemma StepFull(s: State, a: Action)
    requires FullOnes(s) && |s.table| <= TABLE_LIMIT && Next(s, a).Some?
    ensures FullOnes(Next(s, a).value)
  {
    if a.Step? {
      var s' := StepThread(s, a.thread);
      OwnFull(s, a.thread);
      OneCall(s, a.thread);
      hide StepThread;
      forall u | u in s'.calls && s'.calls[u].pc.Cleared? ensures |s'.calls[u].pc.full| == TABLE_LIMIT {
        assert u != a.thread ==> u in s.calls && s'.calls[u] == s.calls[u];
      }
    }
  }

  lemma OwnFull(s: State, t: nat)
    requires t in s.calls && FullOnes(s) && |s.table| <= TABLE_LIMIT
    ensures var s' := StepThread(s, t);
            && (forall g :: 0 <= g < |s'.past| ==> |s'.past[g]| == TABLE_LIMIT)
            && t in s'.calls && (s'.calls[t].pc.Cleared? ==> |s'.calls[t].pc.full| == TABLE_LIMIT)
  {
    hide FillStep, StoreStep, LookStep, CheckLastStep;
    OneCall(s, t);
  }

  /** In every run: the table starts over only when it is full; each generation there was ended with as many answers as
      it can hold. */
  lemma {:induction false} StartsOverOnlyWhenFull(states: seq<State>, acts: seq<Action>, n: nat)
    requires Run(states, acts) && n < |states|
    ensures FullOnes(states[n]) && |states[n].past| == states[n].generation
  {
    hide FullOnes, Next;
    RunKeeps(states, acts, n);
    if n > 0 {
      StartsOverOnlyWhenFull(states, acts, n - 1);
      RunKeeps(states, acts, n - 1);
      assert Next(states[n - 1], acts[n - 1]) == Some(states[n]);
      StepFull(states[n - 1], acts[n - 1]);
    } else {
      NoneYet(states[0]);
    }
  }

  lemma NoneYet(s: State)
    requires Start(s)
    ensures FullOnes(s)
  {
  }

  // ----- What a thread keeps

  /** In every run: a call that answers `Has` leaves its thread with that answer as its own entry. */
  lemma HasIsKept(states: seq<State>, acts: seq<Action>, n: nat, t: nat)
    requires Run(states, acts) && n < |acts| && acts[n] == Step(t)
    requires |states[n].answers| < |states[n + 1].answers| && states[n + 1].answers[|states[n].answers|].state == Has
    ensures var a := states[n + 1].answers[|states[n].answers|];
            t in states[n + 1].last && states[n + 1].last[t] == Entry(a.rt, a.gen)
  {
    var s := states[n];
    assert Next(s, acts[n]) == Some(states[n + 1]);
    RunKeeps(states, acts, n);
    assert PcOk(s, t, s.calls[t]);
    if s.calls[t].pc.Store? {
      TablesTrue(s, s.calls[t].pc.gen);
    }
  }

  // ----- A runtime that has ended

  /** A call in progress on thread `t` about `rt`, which has ended: what it is about to answer is not `Missing`. */
  predicate Late(s: State, t: nat, rt: nat) {
    && rt in s.ended && t in s.calls && s.calls[t].rt == rt && !s.calls[t].yesNo
    && match s.calls[t].pc
       case CheckLast | Look | Recheck(_) | AskEnded => true
       case Lock(state) => state == ShutDown
       case Cleared(state, _) => state == ShutDown
       case Fill(state) => state == ShutDown
       case Store(state, _, _) => state == ShutDown
       case _ => false
  }

  /** What `t` has answered, in one step. */
  predicate Told(s: State, s': State, t: nat, rt: nat) {
    && t in s'.calls && s'.calls[t].pc.Idle? && |s'.answers| == |s.answers| + 1
    && s'.answers[|s.answers|].rt == rt && s'.answers[|s.answers|].state != Missing
  }

  lemma LateOwn(s: State, t: nat, rt: nat)
    requires Late(s, t, rt)
    ensures Late(StepThread(s, t), t, rt) || Told(s, StepThread(s, t), t, rt)
  {
    var pc := s.calls[t].pc;
    if pc.CheckLast? || pc.Look? {
      LateAsks(s, t, rt);
    }
    hide CheckLastStep, LookStep;
  }

  lemma LateAsks(s: State, t: nat, rt: nat)
    requires Late(s, t, rt) && (s.calls[t].pc.CheckLast? || s.calls[t].pc.Look?)
    ensures Late(StepThread(s, t), t, rt) || Told(s, StepThread(s, t), t, rt)
  {
    hide LockStep, FillStep, StoreStep;
  }

  lemma LateStep(s: State, a: Action, t: nat, rt: nat)
    requires Late(s, t, rt) && Next(s, a).Some?
    ensures Late(Next(s, a).value, t, rt) || (a == Step(t) && Told(s, Next(s, a).value, t, rt))
  {
    if a.Step? {
      if a.thread == t {
        LateOwn(s, t, rt);
      } else {
        OneCall(s, a.thread);
      }
    }
    hide StepThread, Told;
  }

  /** In every run: a call that asks for more than a yes or no about a runtime that had ended when the call began is
      never told that the runtime lacks the driver, whatever is kept of it. */
  lemma {:induction false} NeverMissingAfterTheEnd(states: seq<State>, acts: seq<Action>, k: nat, n: nat, t: nat,
                                                   rt: nat)
    requires Run(states, acts) && k < n < |states| && acts[k] == Begin(t, rt, false) && rt in states[k].ended
    requires forall j :: k < j < n ==> t in states[j].calls && !states[j].calls[t].pc.Idle?
    ensures Late(states[n], t, rt) || (acts[n - 1] == Step(t) && Told(states[n - 1], states[n], t, rt))
    decreases n - k
  {
    assert Next(states[n - 1], acts[n - 1]) == Some(states[n]);
    if n > k + 1 {
      NeverMissingAfterTheEnd(states, acts, k, n - 1, t, rt);
      hide Next;
      LateStep(states[n - 1], acts[n - 1], t, rt);
    }
  }
}
