/** Registration, the `Kill` handshake and teardown, over any number of incarnations that reuse ids and names.
    Each spawn registers, stores its abort handle and looks for a `Kill` raised before that; each raiser
    declares its deadline, raises, and looks for the abort handle; each stop or abort by id looks its target up
    and acts on what it found; each registry guard frees its id and then its name. Every access to a map or a
    lane is one atomic step, and everything interleaves. */
module Handshake {
  import opened Base
  import opened Lane
  import opened Registry

  /** What a spawn asks for. */
  datatype Spec = Spec(id: nat, name: Option<nat>, isRoot: bool, grace: nat)

  datatype SpawnPc =
    | Drawing                          // about to draw its registration sequence
    | ClaimingName
    | ClaimingId
    | Releasing                        // the id was taken: the name goes back
    | TurnedAway
    | Storing                          // registered and spawned: the abort handle goes into `by_id`
    | StoringName(found: bool)         // ... then into `by_name`
    | ReadingLane
    | ReadingIdDue
    | ReadingNameDue(due: nat)
    | ReadingClock(due: nat)
    | Arming(due: nat, clock: nat)     // the kill clock the delay is counted from
    | Attached

  datatype GuardPc = NoGuard | Held | FreeingName | Freed

  /** One incarnation: its spawn, its guard, its lane, and the history the theorems speak of: the deadlines
      declared on its two entries, those of the raisers its lane accepted, and those accepted when its attach
      read the lane. */
  datatype Inc = Inc(spec: Spec, serial: nat, pc: SpawnPc, guard: GuardPc, lane: LaneState,
                     idDues: set<nat>, nameDues: set<nat>, raisedDues: set<nat>, seenDues: set<nat>)

  datatype Key = ById(id: nat) | ByName(name: nat)

  datatype RaiserPc =
    | Clocking
    | Declaring(clock: nat)
    | Raising
    | ReadingAbort
    | Scheduling(task: nat, after: nat)
    | Finished(accepted: bool)

  /** `due` is the deadline the raiser declared, if the entry it found was its target's. */
  datatype Raiser = Raiser(key: Key, inc: nat, window: Option<nat>, due: Option<nat>, pc: RaiserPc)

  /** A scheduled abort: whose task it ends, through whose record, and when. */
  datatype Arm = Arm(task: nat, record: nat, at: nat)

  /** What an errand to an incarnation by its id is for. */
  datatype Want = ToStop(reason: StopReason) | ToAbort

  /** It looks the id up, and acts on the lane or the task of the entry it found: whose they are is in `Found`. */
  datatype ErrandPc = LookingUp | Found(inc: nat, task: Option<nat>) | Gone

  datatype Errand = Errand(id: nat, inc: nat, want: Want, pc: ErrandPc)

  /** The errands, and the aborts they have issued. */
  datatype Errands = Errands(all: map<nat, Errand>, aborted: set<Arm>)

  datatype State = State(byId: map<nat, Entry>, byName: map<nat, Entry>, nextSerial: nat, now: nat,
                         incs: map<nat, Inc>, raisers: map<nat, Raiser>, armed: set<Arm>, errands: Errands)

  datatype Action =
    | Spawn(i: nat, spec: Spec)
    | Advance(i: nat)
    | DropGuard(i: nat)
    | NewRaiser(r: nat, key: Key, i: nat, window: Option<nat>)
    | AdvanceRaiser(r: nat)
    | NewErrand(q: nat, id: nat, i: nat, want: Want)
    | AdvanceErrand(q: nat)
    | UseLane(i: nat, op: LaneOp)      // a request through the incarnation's own handle, its closing and its seal
    | Tick(nanos: nat)

  function SetInc(s: State, i: nat, inc: Inc): State { s.(incs := s.incs[i := inc]) }

  function Goto(s: State, i: nat, pc: SpawnPc): State
    requires i in s.incs
  {
    SetInc(s, i, s.incs[i].(pc := pc))
  }

  function FreeName(m: map<nat, Entry>, name: Option<nat>, serial: nat): map<nat, Entry> {
    if name.Some? then RemoveIf(m, name.value, serial) else m
  }

  /** Registration: the sequence, the name, then the id, with the name given back when the id is taken. */
  function RegisterStep(s: State, i: nat): State
    requires i in s.incs
  {
    var inc := s.incs[i];
    var spec := inc.spec;
    match inc.pc
    case Drawing => SetInc(s, i, inc.(serial := s.nextSerial, pc := ClaimingName)).(nextSerial := s.nextSerial + 1)
    case ClaimingName =>
      if spec.name.None? then Goto(s, i, ClaimingId)
      else if spec.name.value in s.byName then Goto(s, i, TurnedAway)
      else Goto(s, i, ClaimingId).(byName := s.byName[spec.name.value := Fresh(i, inc.serial, spec.isRoot, spec.grace)])
    case ClaimingId =>
      if spec.id in s.byId then Goto(s, i, Releasing)
      else
        SetInc(s, i, inc.(pc := Storing, guard := Held))
        .(byId := s.byId[spec.id := Fresh(i, inc.serial, spec.isRoot, spec.grace)])
    case Releasing => Goto(s, i, TurnedAway).(byName := FreeName(s.byName, spec.name, inc.serial))
    case _ => s
  }

  /** The delay an attach arms by: up to the earliest declared deadline, or the grace when none was declared. */
  function AttachDelay(due: nat, clock: nat, grace: nat): nat {
    if due == 0 then grace else Max(0, due - clock)
  }

  /** The attach, first half: store the handle in both entries. */
  function StoreIdStep(s: State, i: nat): State
    requires i in s.incs
  {
    var inc := s.incs[i];
    Goto(s, i, StoringName(HoldsSerial(s.byId, inc.spec.id, inc.serial)))
    .(byId := StoreAbort(s.byId, inc.spec.id, inc.serial, i))
  }

  function StoreNameStep(s: State, i: nat, found: bool): State
    requires i in s.incs
  {
    var inc := s.incs[i];
    Goto(s, i, if found then ReadingLane else Attached)
    .(byName := if inc.spec.name.Some? then StoreAbort(s.byName, inc.spec.name.value, inc.serial, i) else s.byName)
  }

  /** The attach, second half: read the lane, then the deadlines, then the clock, then arm. */
  function ReadTo(s: State, inc: Inc): SpawnPc {
    match inc.pc
    case ReadingLane => if HoldsKill(inc.lane) then ReadingIdDue else Attached
    case ReadingIdDue => ReadingNameDue(DueOf(s.byId, inc.spec.id, inc.serial))
    case ReadingNameDue(due) =>
      ReadingClock(EarlierDue(due, if inc.spec.name.Some? then DueOf(s.byName, inc.spec.name.value, inc.serial) else 0))
    case ReadingClock(due) => Arming(due, KillClock(s.now))
    case _ => Attached
  }

  function ReadStep(s: State, i: nat): State
    requires i in s.incs
  {
    var inc := s.incs[i];
    SetInc(s, i, inc.(pc := ReadTo(s, inc), seenDues := if inc.pc.ReadingLane? then inc.raisedDues else inc.seenDues))
    .(armed := if inc.pc.Arming?
               then
                 var delay := AttachDelay(inc.pc.due, inc.pc.clock, inc.spec.grace);
                 s.armed + {Arm(i, i, SaturatingDeadline(s.now, delay))}
               else s.armed)
  }

  function AttachStep(s: State, i: nat): State
    requires i in s.incs
  {
    match s.incs[i].pc
    case Storing => StoreIdStep(s, i)
    case StoringName(found) => StoreNameStep(s, i, found)
    case _ => ReadStep(s, i)
  }

  /** A guard's drop frees the id, then the name, each only while it is its own registration's. */
  function GuardStep(s: State, i: nat): State
    requires i in s.incs
  {
    var inc := s.incs[i];
    match inc.guard
    case Held =>
      SetInc(s, i, inc.(guard := FreeingName)).(byId := RemoveIf(s.byId, inc.spec.id, inc.serial))
    case FreeingName =>
      SetInc(s, i, inc.(guard := Freed))
      .(byName := FreeName(s.byName, inc.spec.name, inc.serial))
    case _ => s
  }

  /** The map a key looks in, and the key. */
  function MapOf(s: State, key: Key): map<nat, Entry> { if key.ById? then s.byId else s.byName }

  function KeyOf(key: Key): nat { if key.ById? then key.id else key.name }

  function SetRaiser(s: State, r: nat, pc: RaiserPc): State
    requires r in s.raisers
  {
    s.(raisers := s.raisers[r := s.raisers[r].(pc := pc)])
  }

  /** The declaration: recorded on the entry only while the entry is the target's. */
  function DeclareStep(s: State, r: nat, clock: nat): State
    requires r in s.raisers && s.raisers[r].inc in s.incs
  {
    var x := s.raisers[r];
    var inc := s.incs[x.inc];
    var k := KeyOf(x.key);
    if !HoldsInc(MapOf(s, x.key), k, x.inc) then SetRaiser(s, r, Raising)
    else
      var e := MapOf(s, x.key)[k];
      var due := AskedDue(clock, x.window, e.grace);
      var s' := s.(raisers := s.raisers[r := x.(due := Some(due), pc := Raising)]);
      if x.key.ById? then
        SetInc(s', x.inc, inc.(idDues := inc.idDues + {due})).(byId := s.byId[k := Declare(e, due)])
      else
        SetInc(s', x.inc, inc.(nameDues := inc.nameDues + {due})).(byName := s.byName[k := Declare(e, due)])
  }

  function RaiserStep(s: State, r: nat): State
    requires r in s.raisers && s.raisers[r].inc in s.incs
  {
    var x := s.raisers[r];
    var inc := s.incs[x.inc];
    match x.pc
    case Clocking => SetRaiser(s, r, Declaring(KillClock(s.now)))
    case Declaring(clock) => DeclareStep(s, r, clock)
    case Raising =>
      var (lane, result) := TryRaise(inc.lane, Kill);
      if result == RaiseResult.Refused then SetRaiser(s, r, Finished(false))
      else
        var dues := if x.due.Some? then {x.due.value} else {};
        SetInc(SetRaiser(s, r, ReadingAbort), x.inc, inc.(lane := lane, raisedDues := inc.raisedDues + dues))
    case ReadingAbort =>
      var k := KeyOf(x.key);
      if HoldsInc(MapOf(s, x.key), k, x.inc) && MapOf(s, x.key)[k].abort.Some? then
        var e := MapOf(s, x.key)[k];
        SetRaiser(s, r, Scheduling(e.abort.value, if x.window.Some? then x.window.value else e.grace))
      else SetRaiser(s, r, Finished(true))
    case Scheduling(task, after) =>
      SetRaiser(s, r, Finished(true)).(armed := s.armed + {Arm(task, x.inc, SaturatingDeadline(s.now, after))})
    case Finished(_) => s
  }

  function SetErrand(s: State, q: nat, x: Errand): State { s.(errands := s.errands.(all := s.errands.all[q := x])) }

  /** A stop or an abort by id: the entry is matched by its status plane, and what is then used is the entry's. */
  function ErrandStep(s: State, q: nat): State
    requires q in s.errands.all && (s.errands.all[q].pc.Found? ==> s.errands.all[q].pc.inc in s.incs)
  {
    var x := s.errands.all[q];
    var over := SetErrand(s, q, x.(pc := Gone));
    match x.pc
    case LookingUp =>
      if HoldsInc(s.byId, x.id, x.inc) then SetErrand(s, q, x.(pc := Found(s.byId[x.id].inc, s.byId[x.id].abort)))
      else over
    case Found(inc, task) =>
      if x.want.ToStop? then SetInc(over, inc, s.incs[inc].(lane := TryRaise(s.incs[inc].lane, x.want.reason).0))
      else if task.Some? then
        over.(errands := over.errands.(aborted := s.errands.aborted + {Arm(task.value, inc, s.now)}))
      else over
    case Gone => s
  }

  predicate Registering(pc: SpawnPc) { pc.Drawing? || pc.ClaimingName? || pc.ClaimingId? || pc.Releasing? }

  function Next(s: State, a: Action): Option<State> {
    match a
    case Spawn(i, spec) =>
      if i in s.incs then None
      else Some(SetInc(s, i, Inc(spec, 0, Drawing, NoGuard, FRESH, {}, {}, {}, {})))
    case Advance(i) =>
      if i !in s.incs || s.incs[i].pc.TurnedAway? || s.incs[i].pc.Attached? then None
      else if Registering(s.incs[i].pc) then Some(RegisterStep(s, i))
      else Some(AttachStep(s, i))
    case DropGuard(i) =>
      if i in s.incs && (s.incs[i].guard.Held? || s.incs[i].guard.FreeingName?)
      then Some(GuardStep(s, i)) else None
    case NewRaiser(r, key, i, window) =>
      if r in s.raisers || i !in s.incs then None
      else Some(s.(raisers := s.raisers[r := Raiser(key, i, window, None, Clocking)]))
    case AdvanceRaiser(r) =>
      if r in s.raisers && s.raisers[r].inc in s.incs && !s.raisers[r].pc.Finished? then Some(RaiserStep(s, r))
      else None
    case NewErrand(q, id, i, want) =>
      if q in s.errands.all || i !in s.incs then None else Some(SetErrand(s, q, Errand(id, i, want, LookingUp)))
    case AdvanceErrand(q) =>
      if q !in s.errands.all || s.errands.all[q].pc.Gone? then None
      else if s.errands.all[q].pc.Found? && s.errands.all[q].pc.inc !in s.incs then None
      else Some(ErrandStep(s, q))
    case UseLane(i, op) =>
      if i in s.incs then Some(SetInc(s, i, s.incs[i].(lane := Apply(s.incs[i].lane, op)))) else None
    case Tick(nanos) => Some(s.(now := s.now + nanos))
  }

  predicate Init(s: State) {
    && s.byId == map[] && s.byName == map[] && s.incs == map[] && s.raisers == map[] && s.armed == {}
    && s.errands == Errands(map[], {})
  }

  ghost predicate Run(states: seq<State>, acts: seq<Action>) {
    && |states| == |acts| + 1
    && Init(states[0])
    && forall i :: 0 <= i < |acts| ==> Next(states[i], acts[i]) == Some(states[i + 1])
  }
}
