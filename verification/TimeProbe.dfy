/** The cache of which runtimes have a time driver: a bounded table shared by the process, over it one entry for each
    thread, and a generation that tells the entries of a table from those of one it started over from. */
module TimeProbe {
  import opened Base

  datatype TimerState = Has | Missing | ShutDown

  const TABLE_LIMIT: nat := 1024

  type Table = map<nat, TimerState>

  /** Where a thread is in a call. `Cleared` and `Fill` hold the table's lock. */
  datatype Pc =
    | CheckLast
    | Look
    | Recheck(gen: nat)
    | AskEnded
    | Probe
    | Lock(state: TimerState)
    | Cleared(state: TimerState, full: Table)
    | Fill(state: TimerState)
    | Store(state: TimerState, kept: TimerState, gen: nat)
    | Idle

  /** A call about `rt`; one that only asks for a yes or no takes any kept answer. */
  datatype Call = Call(rt: nat, yesNo: bool, pc: Pc)

  /** An answer a call gave, and the generation of the table it is from. */
  datatype Answer = Answer(rt: nat, gen: nat, state: TimerState)

  datatype Entry = Entry(rt: nat, gen: nat)

  /** `driver` are the runtimes built with the driver and `ended` those that have ended. `past` keeps the tables of
      the generations before, and `answers` what was answered. */
  datatype State = State(driver: set<nat>, ended: set<nat>, table: Table, generation: nat, locked: Option<nat>,
                         last: map<nat, Entry>, calls: map<nat, Call>, past: seq<Table>, answers: seq<Answer>)

  datatype Action = Begin(thread: nat, rt: nat, yesNo: bool) | Step(thread: nat) | End(rt: nat)

  function At(s: State, thread: nat, pc: Pc): State
    requires thread in s.calls
  {
    s.(calls := s.calls[thread := s.calls[thread].(pc := pc)])
  }

  function Answered(s: State, thread: nat, gen: nat, state: TimerState): State
    requires thread in s.calls
  {
    At(s, thread, Idle).(answers := s.answers + [Answer(s.calls[thread].rt, gen, state)])
  }

  /** What a probe of the driver finds: a runtime with it that has ended panics at the poll. */
  function Probed(s: State, rt: nat): TimerState {
    if rt !in s.driver then Missing else if rt in s.ended then ShutDown else Has
  }

  /** The kept answer, if the thread's own entry is current. */
  function CheckLastStep(s: State, t: nat): State
    requires t in s.calls
  {
    if t in s.last && s.last[t] == Entry(s.calls[t].rt, s.generation) then Answered(s, t, s.generation, Has)
    else At(s, t, Look)
  }

  /** The kept answer, if the table holds one; taken under the lock. */
  function LookStep(s: State, t: nat): State
    requires t in s.calls
  {
    var c := s.calls[t];
    if c.rt !in s.table then
      if c.yesNo then s.(calls := s.calls[t := Call(c.rt, false, CheckLast)]) else At(s, t, AskEnded)
    else if s.table[c.rt] == Has then
      Answered(s, t, s.generation, Has).(last := s.last[t := Entry(c.rt, s.generation)])
    else if s.table[c.rt] == Missing && !c.yesNo then At(s, t, Recheck(s.generation))
    else Answered(s, t, s.generation, s.table[c.rt])
  }

  /** `remember` takes the lock, and clears a table that is full. */
  function LockStep(s: State, t: nat, state: TimerState): State
    requires t in s.calls
  {
    if |s.table| >= TABLE_LIMIT then At(s, t, Cleared(state, s.table)).(locked := Some(t), table := map[])
    else At(s, t, Fill(state)).(locked := Some(t))
  }

  /** The answer is kept unless one is, and the lock is given back. */
  function FillStep(s: State, t: nat, state: TimerState): State
    requires t in s.calls
  {
    var rt := s.calls[t].rt;
    var table := if rt in s.table then s.table else s.table[rt := state];
    At(s, t, Store(state, table[rt], s.generation)).(locked := None, table := table)
  }

  function StoreStep(s: State, t: nat, state: TimerState, kept: TimerState, gen: nat): State
    requires t in s.calls
  {
    var s' := Answered(s, t, gen, if kept == Missing then state else kept);
    if kept == Has then s'.(last := s.last[t := Entry(s.calls[t].rt, gen)]) else s'
  }

  predicate Blocked(s: State, t: nat)
    requires t in s.calls
  {
    (s.calls[t].pc.Look? || s.calls[t].pc.Lock?) && s.locked.Some?
  }

  function StepThread(s: State, t: nat): State
    requires t in s.calls
  {
    var rt := s.calls[t].rt;
    match s.calls[t].pc
    case CheckLast => CheckLastStep(s, t)
    case Look => LookStep(s, t)
    case Recheck(gen) => Answered(s, t, gen, if rt in s.ended then ShutDown else Missing)
    case AskEnded => At(s, t, if rt in s.ended then Lock(ShutDown) else Probe)
    case Probe => At(s, t, Lock(Probed(s, rt)))
    case Lock(state) => LockStep(s, t, state)
    case Cleared(state, full) => At(s, t, Fill(state)).(generation := s.generation + 1, past := s.past + [full])
    case Fill(state) => FillStep(s, t, state)
    case Store(state, kept, gen) => StoreStep(s, t, state, kept, gen)
    case Idle => s
  }

  function Next(s: State, a: Action): Option<State> {
    match a
    case Begin(t, rt, yesNo) =>
      if t in s.calls && s.calls[t].pc != Idle then None
      else Some(s.(calls := s.calls[t := Call(rt, yesNo, CheckLast)]))
    case Step(t) => if t in s.calls && !Blocked(s, t) then Some(StepThread(s, t)) else None
    case End(rt) => Some(s.(ended := s.ended + {rt}))
  }

  ghost predicate Start(s: State) {
    s == State(s.driver, s.ended, map[], 0, None, map[], map[], [], [])
  }

  ghost predicate Run(states: seq<State>, acts: seq<Action>) {
    && |states| == |acts| + 1 && Start(states[0])
    && forall i :: 0 <= i < |acts| ==> Next(states[i], acts[i]) == Some(states[i + 1])
  }

  // ----- What every step keeps

  /** The table of a generation: a start-over takes effect when the generation moves on. */
  function TableOf(s: State, gen: nat): Table {
    if gen < |s.past| then s.past[gen]
    else if s.locked.Some? && s.locked.value in s.calls && s.calls[s.locked.value].pc.Cleared? then
      s.calls[s.locked.value].pc.full
    else s.table
  }

  predicate Keeps(m: Table, rt: nat, state: TimerState) { rt in m && m[rt] == state }

  /** An answer is true of its runtime. */
  predicate True(s: State, rt: nat, state: TimerState) {
    match state
    case Has => rt in s.driver
    case Missing => rt !in s.driver
    case ShutDown => rt in s.ended
  }

  predicate TableTrue(s: State, m: Table) { forall r :: r in m ==> True(s, r, m[r]) }

  /** A call gives the answer kept, or tells that a runtime kept as lacking the driver has ended. */
  predicate Fits(kept: TimerState, state: TimerState) { state == kept || (kept == Missing && state == ShutDown) }

  predicate PcOk(s: State, t: nat, c: Call) {
    match c.pc
    case Recheck(gen) => gen <= s.generation && Keeps(TableOf(s, gen), c.rt, Missing)
    case Lock(state) => True(s, c.rt, state)
    case Cleared(state, full) => s.locked == Some(t) && True(s, c.rt, state) && s.table == map[]
        && |full| <= TABLE_LIMIT
    case Fill(state) => s.locked == Some(t) && True(s, c.rt, state) && |s.table| < TABLE_LIMIT
    case Store(state, kept, gen) =>
      gen <= s.generation && Keeps(TableOf(s, gen), c.rt, kept) && True(s, c.rt, state)
    case _ => true
  }

  predicate LocksOk(s: State) {
    s.locked.Some? ==>
      s.locked.value in s.calls && (s.calls[s.locked.value].pc.Cleared? || s.calls[s.locked.value].pc.Fill?)
  }

  predicate EntryOk(s: State, e: Entry) { e.gen <= s.generation && Keeps(TableOf(s, e.gen), e.rt, Has) }

  predicate AnswerOk(s: State, a: Answer) {
    a.gen <= s.generation && a.rt in TableOf(s, a.gen) && Fits(TableOf(s, a.gen)[a.rt], a.state)
        && True(s, a.rt, a.state)
  }

  ghost predicate Inv(s: State) {
    && |s.past| == s.generation && LocksOk(s) && |s.table| <= TABLE_LIMIT
    && (forall g :: 0 <= g <= s.generation ==> TableTrue(s, TableOf(s, g)))
    && (forall t :: t in s.calls ==> PcOk(s, t, s.calls[t]))
    && (forall t :: t in s.last ==> EntryOk(s, s.last[t]))
    && (forall k :: 0 <= k < |s.answers| ==> AnswerOk(s, s.answers[k]))
  }

  predicate Extends(m: Table, m': Table) { forall r :: r in m ==> Keeps(m', r, m[r]) }

  /** The tables of the generations so far only gain answers, what is so of runtimes stays so, and the generation only
      goes up. */
  ghost predicate Grows(s: State, s': State) {
    && s.driver == s'.driver && s.ended <= s'.ended && s.generation <= s'.generation
    && forall g :: 0 <= g <= s.generation ==> Extends(TableOf(s, g), TableOf(s', g))
  }

  /** A step of `t` leaves the calls and entries of the other threads alone, and the table too while another holds its
      lock; it gives at most one answer. */
  ghost predicate Moves(s: State, s': State, t: nat) {
    && Grows(s, s') && |s'.past| == s'.generation
    && (forall u :: u in s'.calls && u != t ==> u in s.calls && s'.calls[u] == s.calls[u])
    && (forall u :: u in s'.last && u != t ==> u in s.last && s'.last[u] == s.last[u])
    && (s.locked.Some? && s.locked.value != t ==> s'.locked == s.locked && s'.table == s.table)
    && |s'.answers| <= |s.answers| + 1 && s.answers <= s'.answers
  }

  /** What is so of the thread that moved, and of the tables. */
  ghost predicate Mine(s: State, s': State, t: nat) {
    && LocksOk(s') && |s'.table| <= TABLE_LIMIT
    && (forall g :: 0 <= g <= s'.generation ==> TableTrue(s', TableOf(s', g)))
    && (t in s'.calls ==> PcOk(s', t, s'.calls[t]))
    && (t in s'.last ==> EntryOk(s', s'.last[t]))
    && (|s.answers| < |s'.answers| ==> AnswerOk(s', s'.answers[|s.answers|]))
  }

  lemma OtherPcs(s: State, s': State, t: nat)
    requires Inv(s) && Moves(s, s', t)
    ensures forall u :: u in s'.calls && u != t ==> PcOk(s', u, s'.calls[u])
  {
    forall u | u in s'.calls && u != t ensures PcOk(s', u, s'.calls[u]) {
      assert PcOk(s, u, s.calls[u]);
      var pc := s.calls[u].pc;
      if pc.Recheck? || pc.Store? {
        assert Extends(TableOf(s, pc.gen), TableOf(s', pc.gen));
      }
    }
  }

  lemma OldAnswers(s: State, s': State, t: nat)
    requires Inv(s) && Moves(s, s', t)
    ensures forall k :: 0 <= k < |s.answers| ==> AnswerOk(s', s'.answers[k])
    ensures forall u :: u in s'.last && u != t ==> EntryOk(s', s'.last[u])
  {
    forall k | 0 <= k < |s.answers| ensures AnswerOk(s', s'.answers[k]) {
      var a := s.answers[k];
      assert AnswerOk(s, a) && s'.answers[k] == a;
      assert Extends(TableOf(s, a.gen), TableOf(s', a.gen));
    }
    forall u | u in s'.last && u != t ensures EntryOk(s', s'.last[u]) {
      assert EntryOk(s, s.last[u]);
      assert Extends(TableOf(s, s.last[u].gen), TableOf(s', s.last[u].gen));
    }
  }

  lemma MovesKeep(s: State, s': State, t: nat)
    requires Inv(s) && Moves(s, s', t) && Mine(s, s', t)
    ensures Inv(s')
  {
    OtherPcs(s, s', t);
    OldAnswers(s, s', t);
  }

  /** A step that changes no table. */
  lemma SameTables(s: State, s': State)
    requires Inv(s) && s'.past == s.past && s'.generation == s.generation && s'.table == s.table
        && s'.locked == s.locked
    requires s'.driver == s.driver && s.ended <= s'.ended
    requires s.locked.Some? ==> s.locked.value in s'.calls && s'.calls[s.locked.value] == s.calls[s.locked.value]
    ensures Grows(s, s') && LocksOk(s')
    ensures forall g :: 0 <= g <= s.generation ==> TableOf(s', g) == TableOf(s, g) && TableTrue(s', TableOf(s', g))
  {
    forall g | 0 <= g <= s.generation ensures TableOf(s', g) == TableOf(s, g) && TableTrue(s', TableOf(s', g)) {
      assert TableTrue(s, TableOf(s, g));
    }
  }

  lemma NotHolding(s: State, t: nat)
    requires Inv(s) && t in s.calls && !s.calls[t].pc.Cleared? && !s.calls[t].pc.Fill?
    ensures s.locked != Some(t) && PcOk(s, t, s.calls[t])
    ensures t in s.last ==> EntryOk(s, s.last[t])
    ensures |s.past| == s.generation && |s.table| <= TABLE_LIMIT && LocksOk(s)
  {
  }

  lemma TablesTrue(s: State, gen: nat)
    requires Inv(s) && gen <= s.generation
    ensures TableTrue(s, TableOf(s, gen))
  {
  }

  /** A step of `t` that changes no table moves as it should, once its call, its entry and its answer are right. */
  lemma TablesStand(s: State, s': State, t: nat)
    requires Inv(s) && t in s.calls && s.locked != Some(t)
    requires s' == s.(calls := s'.calls, last := s'.last, answers := s'.answers)
    requires t in s'.calls && s'.calls == s.calls[t := s'.calls[t]]
    requires forall u :: u in s'.last && u != t ==> u in s.last && s'.last[u] == s.last[u]
    requires s.answers <= s'.answers && |s'.answers| <= |s.answers| + 1
    requires PcOk(s', t, s'.calls[t]) && (t in s'.last ==> EntryOk(s', s'.last[t]))
    requires |s.answers| < |s'.answers| ==> AnswerOk(s', s'.answers[|s.answers|])
    ensures Moves(s, s', t) && Mine(s, s', t)
  {
    SameTables(s, s');
  }

  lemma CheckingKeeps(s: State, t: nat)
    requires Inv(s) && t in s.calls && (s.calls[t].pc.CheckLast?)
    ensures var s' := StepThread(s, t); Moves(s, s', t) && Mine(s, s', t)
  {
    var s' := StepThread(s, t);
    NotHolding(s, t);
    SameTables(s, s');
  }

  lemma MissingKeeps(s: State, t: nat)
    requires Inv(s) && t in s.calls && !Blocked(s, t) && s.calls[t].pc.Look? && s.calls[t].rt !in s.table
    ensures var s' := LookStep(s, t); Moves(s, s', t) && Mine(s, s', t)
  {
    hide Inv, Moves, Mine;
    var s' := LookStep(s, t);
    NotHolding(s, t);
    SameTables(s, s');
    TablesStand(s, s', t);
  }

  lemma FindingKeeps(s: State, t: nat)
    requires Inv(s) && t in s.calls && !Blocked(s, t) && s.calls[t].pc.Look? && s.calls[t].rt in s.table
    ensures var s' := LookStep(s, t); Moves(s, s', t) && Mine(s, s', t)
  {
    hide Inv, Moves, Mine;
    var s', rt := LookStep(s, t), s.calls[t].rt;
    NotHolding(s, t);
    SameTables(s, s');
    assert TableOf(s', s.generation) == s.table && TableTrue(s', s.table);
    assert True(s', rt, s.table[rt]);
    TablesStand(s, s', t);
  }

  lemma LookingKeeps(s: State, t: nat)
    requires Inv(s) && t in s.calls && !Blocked(s, t) && s.calls[t].pc.Look?
    ensures var s' := StepThread(s, t); Moves(s, s', t) && Mine(s, s', t)
  {
    hide Inv, LookStep, Moves, Mine;
    if s.calls[t].rt in s.table {
      FindingKeeps(s, t);
    } else {
      MissingKeeps(s, t);
    }
  }

  lemma AskingKeeps(s: State, t: nat)
    requires Inv(s) && t in s.calls && (s.calls[t].pc.AskEnded? || s.calls[t].pc.Probe? || s.calls[t].pc.Idle?)
    ensures var s' := StepThread(s, t); Moves(s, s', t) && Mine(s, s', t)
  {
    var s' := StepThread(s, t);
    NotHolding(s, t);
    SameTables(s, s');
  }

  lemma RecheckingKeeps(s: State, t: nat)
    requires Inv(s) && t in s.calls && (s.calls[t].pc.Recheck?)
    ensures var s' := StepThread(s, t); Moves(s, s', t) && Mine(s, s', t)
  {
    var s' := StepThread(s, t);
    NotHolding(s, t);
    SameTables(s, s');
    assert TableTrue(s, TableOf(s, s.calls[t].pc.gen));
  }

  lemma StoringKeeps(s: State, t: nat)
    requires Inv(s) && t in s.calls && (s.calls[t].pc.Store?)
    ensures var s' := StepThread(s, t); Moves(s, s', t) && Mine(s, s', t)
  {
    hide Inv, Moves, Mine;
    var s' := StepThread(s, t);
    NotHolding(s, t);
    SameTables(s, s');
    TablesTrue(s, s.calls[t].pc.gen);
    TablesStand(s, s', t);
  }

  /** Taking the lock leaves the tables as they were. */
  lemma LockedTables(s: State, t: nat)
    requires Inv(s) && t in s.calls && s.locked.None? && s.calls[t].pc.Lock?
    ensures var s' := LockStep(s, t, s.calls[t].pc.state);
            forall g :: 0 <= g <= s.generation ==> TableOf(s', g) == TableOf(s, g) && TableTrue(s', TableOf(s', g))
  {
    var s' := LockStep(s, t, s.calls[t].pc.state);
    forall g | 0 <= g <= s.generation ensures TableOf(s', g) == TableOf(s, g) && TableTrue(s', TableOf(s', g)) {
      assert TableTrue(s, TableOf(s, g));
    }
  }

  /** Clearing leaves the generation's table as it was; it is the start-over that ends it. */
  lemma LockingKeeps(s: State, t: nat)
    requires Inv(s) && t in s.calls && !Blocked(s, t) && s.calls[t].pc.Lock?
    ensures var s' := StepThread(s, t); Moves(s, s', t) && Mine(s, s', t)
  {
    hide Inv, TableTrue, TableOf;
    NotHolding(s, t);
    LockedTables(s, t);
  }

  lemma BumpingKeeps(s: State, t: nat)
    requires Inv(s) && t in s.calls && s.calls[t].pc.Cleared?
    ensures var s' := StepThread(s, t); Moves(s, s', t) && Mine(s, s', t)
  {
    var s' := StepThread(s, t);
    assert PcOk(s, t, s.calls[t]);
    forall g | 0 <= g <= s.generation ensures TableOf(s', g) == TableOf(s, g) && TableTrue(s', TableOf(s', g)) {
      assert TableTrue(s, TableOf(s, g));
    }
    assert TableOf(s', s'.generation) == map[];
    if t in s.last {
      assert EntryOk(s, s.last[t]);
    }
  }

  lemma FillingKeeps(s: State, t: nat)
    requires Inv(s) && t in s.calls && s.calls[t].pc.Fill?
    ensures var s' := StepThread(s, t); Moves(s, s', t) && Mine(s, s', t)
  {
    var s' := StepThread(s, t);
    assert PcOk(s, t, s.calls[t]);
    forall g | 0 <= g <= s.generation ensures Extends(TableOf(s, g), TableOf(s', g)) && TableTrue(s', TableOf(s', g)) {
      assert TableTrue(s, TableOf(s, g));
    }
    if t in s.last {
      assert EntryOk(s, s.last[t]);
      assert Extends(TableOf(s, s.last[t].gen), TableOf(s', s.last[t].gen));
    }
  }

  lemma BeginningKeeps(s: State, t: nat, rt: nat, yesNo: bool)
    requires Inv(s) && (t in s.calls ==> s.calls[t].pc == Idle)
    ensures var s' := s.(calls := s.calls[t := Call(rt, yesNo, CheckLast)]); Moves(s, s', t) && Mine(s, s', t)
  {
    if t in s.calls {
      NotHolding(s, t);
    }
    SameTables(s, s.(calls := s.calls[t := Call(rt, yesNo, CheckLast)]));
  }

  lemma EndingKeeps(s: State, rt: nat)
    requires Inv(s)
    ensures var s' := s.(ended := s.ended + {rt}); Inv(s') && Grows(s, s')
  {
    var s' := s.(ended := s.ended + {rt});
    SameTables(s, s');
    forall t | t in s'.calls ensures PcOk(s', t, s'.calls[t]) {
      assert PcOk(s, t, s.calls[t]);
    }
  }

  lemma ThreadKeeps(s: State, t: nat)
    requires Inv(s) && t in s.calls && !Blocked(s, t)
    ensures var s' := StepThread(s, t); Moves(s, s', t) && Mine(s, s', t)
  {
    match s.calls[t].pc
    case CheckLast => CheckingKeeps(s, t);
    case Look => LookingKeeps(s, t);
    case Recheck(_) => RecheckingKeeps(s, t);
    case Lock(_) => LockingKeeps(s, t);
    case Cleared(_, _) => BumpingKeeps(s, t);
    case Fill(_) => FillingKeeps(s, t);
    case Store(_, _, _) => StoringKeeps(s, t);
    case _ => AskingKeeps(s, t);
  }

  lemma StepKeeps(s: State, a: Action, s': State)
    requires Inv(s) && Next(s, a) == Some(s')
    ensures Inv(s') && Grows(s, s')
  {
    match a
    case Begin(t, rt, yesNo) =>
      BeginningKeeps(s, t, rt, yesNo);
      MovesKeep(s, s', t);
    case Step(t) =>
      ThreadKeeps(s, t);
      MovesKeep(s, s', t);
    case End(rt) => EndingKeeps(s, rt);
  }

  lemma {:induction false} RunKeeps(states: seq<State>, acts: seq<Action>, n: nat)
    requires Run(states, acts) && n < |states|
    ensures Inv(states[n])
  {
    if n > 0 {
      RunKeeps(states, acts, n - 1);
      StepKeeps(states[n - 1], acts[n - 1], states[n]);
    }
  }

  // ----- The cache over every run

  /** A thread's entry of the current generation is an answer the table holds, or held when a start-over still under
      way cleared it; and the table never exceeds its limit. */
  lemma EntriesAgree(states: seq<State>, acts: seq<Action>, n: nat, t: nat)
    requires Run(states, acts) && n < |states| && t in states[n].last && states[n].last[t].gen == states[n].generation
    ensures var s := states[n];
            && Keeps(TableOf(s, s.generation), s.last[t].rt, Has)
            && (Keeps(s.table, s.last[t].rt, Has) || exists u :: u in s.calls && s.calls[u].pc.Cleared?)
            && |s.table| <= TABLE_LIMIT
  {
    RunKeeps(states, acts, n);
    assert EntryOk(states[n], states[n].last[t]);
  }

  lemma GrowsSelf(s: State)
    ensures Grows(s, s)
  {
  }

  lemma GrowsTrans(a: State, b: State, c: State)
    requires Grows(a, b) && Grows(b, c)
    ensures Grows(a, c)
  {
    hide TableOf;
    forall g | 0 <= g <= a.generation ensures Extends(TableOf(a, g), TableOf(c, g)) {
      assert Extends(TableOf(a, g), TableOf(b, g)) && Extends(TableOf(b, g), TableOf(c, g));
    }
  }

  lemma {:induction false} RunGrows(states: seq<State>, acts: seq<Action>, m: nat, n: nat)
    requires Run(states, acts) && m <= n < |states|
    ensures Grows(states[m], states[n])
  {
    hide Inv, Next, Grows;
    if m < n {
      RunGrows(states, acts, m, n - 1);
      RunKeeps(states, acts, n - 1);
      StepKeeps(states[n - 1], acts[n - 1], states[n]);
      GrowsTrans(states[m], states[n - 1], states[n]);
    } else {
      GrowsSelf(states[m]);
    }
  }

  /** The first answer stored for a runtime stays for as long as the table does not start over. */
  lemma FirstAnswerStays(states: seq<State>, acts: seq<Action>, m: nat, n: nat, rt: nat)
    requires Run(states, acts) && m <= n < |states| && states[m].generation == states[n].generation
    requires rt in TableOf(states[m], states[m].generation)
    ensures Keeps(TableOf(states[n], states[n].generation), rt, TableOf(states[m], states[m].generation)[rt])
  {
    RunGrows(states, acts, m, n);
    assert Extends(TableOf(states[m], states[m].generation), TableOf(states[n], states[m].generation));
  }

  /** No call is told that a runtime with the driver lacks it, that one without has it, or that one still running has
      ended, whichever threads asked and however often the table started over. */
  lemma AnswersAreTrue(states: seq<State>, acts: seq<Action>, n: nat, k: nat)
    requires Run(states, acts) && n < |states| && k < |states[n].answers|
    ensures var s, a := states[n], states[n].answers[k];
            && (a.state == Missing ==> a.rt !in s.driver)
            && (a.state == Has ==> a.rt in s.driver)
            && (a.state == ShutDown ==> a.rt in s.ended)
  {
    RunKeeps(states, acts, n);
    assert AnswerOk(states[n], states[n].answers[k]);
  }

  /** Within one generation every call about a runtime gets the same yes or no, on every thread. */
  lemma OneAnswerPerGeneration(states: seq<State>, acts: seq<Action>, n: nat, j: nat, k: nat)
    requires Run(states, acts) && n < |states| && j < |states[n].answers| && k < |states[n].answers|
    requires states[n].answers[j].rt == states[n].answers[k].rt && states[n].answers[j].gen == states[n].answers[k].gen
    ensures states[n].answers[j].state == Has <==> states[n].answers[k].state == Has
  {
    RunKeeps(states, acts, n);
    assert AnswerOk(states[n], states[n].answers[j]) && AnswerOk(states[n], states[n].answers[k]);
  }

  // ----- The calls of one thread at a time

  class TimerCache {
    var table: Table
    var generation: nat
    var last: map<nat, Entry>

    ghost predicate Valid()
      reads this
    {
      && |table| <= TABLE_LIMIT
      && forall t :: t in last ==>
        last[t].gen <= generation && (last[t].gen == generation ==> Keeps(table, last[t].rt, Has))
    }

    constructor ()
      ensures Valid() && table == map[]
    {
      table, generation, last := map[], 0, map[];
    }

    /** The thread's own entry is a shortcut: the answer is the table's. */
    method CachedState(t: nat, rt: nat) returns (state: Option<TimerState>)
      requires Valid()
      modifies this`last
      ensures Valid()
      ensures state == if rt in table then Some(table[rt]) else None
    {
      if t in last && last[t] == Entry(rt, generation) {
        return Some(Has);
      }
      if rt !in table {
        return None;
      }
      if table[rt] == Has {
        last := last[t := Entry(rt, generation)];
      }
      state := Some(table[rt]);
    }

    /** Keeps `state` unless an answer is kept; a full table starts over first, with every thread's entry. */
    method Remember(t: nat, rt: nat, state: TimerState) returns (kept: TimerState)
      requires Valid()
      modifies this
      ensures Valid() && Keeps(table, rt, kept)
      ensures |old(table)| < TABLE_LIMIT ==>
                && generation == old(generation)
                && table == old(table)[rt := if rt in old(table) then old(table)[rt] else state]
      ensures |old(table)| >= TABLE_LIMIT ==>
                && table == map[rt := state]
                && forall u :: u in last && last[u].gen == generation ==> u == t && state == Has
    {
      if |table| >= TABLE_LIMIT {
        table := map[];
        generation := generation + 1;
      }
      if rt !in table {
        table := table[rt := state];
      }
      kept := table[rt];
      if kept == Has {
        last := last[t := Entry(rt, generation)];
      }
    }

    /** The answer for `rt`, given what asking it would find now: the kept one, except that one kept as lacking the
        driver is asked again whether it has ended. */
    method RuntimeTimerState(t: nat, rt: nat, hasEnded: bool, probed: TimerState) returns (state: TimerState)
      requires Valid()
      modifies this
      ensures Valid()
      ensures rt in old(table) ==>
                table == old(table) &&
                state == if old(table)[rt] == Missing && hasEnded then ShutDown else old(table)[rt]
      ensures rt !in old(table) ==> state == (if hasEnded then ShutDown else probed) && Keeps(table, rt, state)
    {
      var cached := CachedState(t, rt);
      if cached.Some? {
        return if cached.value == Missing && hasEnded then ShutDown else cached.value;
      }
      var found := if hasEnded then ShutDown else probed;
      var kept := Remember(t, rt, found);
      state := if kept == Missing then found else kept;
    }
  }
}
