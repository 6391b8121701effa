/** Whose entry is whose: every step of the registry protocol touches the entries of its own incarnation alone,
    so a later incarnation under the same id or name is out of reach of everything started on an earlier one. */
module Ownership {
  import opened Base
  import opened Lane
  import opened Registry
  import opened Handshake

  /** The registration in progress, or the guard, holds the name. */
  predicate NameHeld(inc: Inc) {
    inc.pc.ClaimingId? || inc.pc.Releasing? || inc.guard.Held? || inc.guard.FreeingName?
  }

  /** The entry under `k` is incarnation `i`'s own: its serial, its kind, its grace, its abort handle if any, and
      exactly the deadlines declared on it. */
  ghost predicate OwnEntry(m: map<nat, Entry>, k: nat, i: nat, inc: Inc, dues: set<nat>) {
    && HoldsInc(m, k, i) && m[k].serial == inc.serial && m[k].grace == inc.spec.grace
    && m[k].isRoot == inc.spec.isRoot
    && (m[k].abort.Some? ==> m[k].abort.value == i)
    && Records(m[k].killDue, dues)
  }

  /** An incarnation has its entries while its registration or its guard holds them. */
  ghost predicate IncOk(s: State, i: nat, inc: Inc) {
    && (inc.guard.NoGuard? <==> Registering(inc.pc) || inc.pc.TurnedAway?)
    && (inc.guard.Held? ==> OwnEntry(s.byId, inc.spec.id, i, inc, inc.idDues))
    && (NameHeld(inc) && inc.spec.name.Some? ==> OwnEntry(s.byName, inc.spec.name.value, i, inc, inc.nameDues))
    && (inc.pc.Drawing? || inc.pc.ClaimingName? ==> inc.nameDues == {})
    && (Registering(inc.pc) ==> inc.idDues == {})
    && (!inc.pc.Drawing? ==> inc.serial < s.nextSerial)
  }

  /** An entry stands where its incarnation asked for it, while it is held there. */
  predicate IdPlaced(incs: map<nat, Inc>, k: nat, e: Entry) {
    && e.inc in incs && incs[e.inc].spec.id == k && incs[e.inc].guard.Held?
    && e.serial == incs[e.inc].serial
  }

  predicate NamePlaced(incs: map<nat, Inc>, k: nat, e: Entry) {
    && e.inc in incs && incs[e.inc].spec.name == Some(k) && NameHeld(incs[e.inc])
    && e.serial == incs[e.inc].serial
  }

  /** Serials name one incarnation each. */
  predicate SerialsDistinct(incs: map<nat, Inc>) {
    forall i, j | i in incs && j in incs && !incs[i].pc.Drawing? && !incs[j].pc.Drawing? ::
      incs[i].serial == incs[j].serial ==> i == j
  }

  predicate RaisersOk(s: State) {
    forall r :: r in s.raisers ==>
                  s.raisers[r].inc in s.incs && (s.raisers[r].pc.Declaring? ==> s.raisers[r].pc.clock >= 1)
  }

  /** An errand that found its target found that incarnation's lane and task. */
  predicate ErrandOk(s: State, x: Errand) {
    && x.inc in s.incs
    && (x.pc.Found? ==> x.pc.inc == x.inc && (x.pc.task.Some? ==> x.pc.task.value == x.inc))
  }

  predicate ErrandsOk(s: State) { forall q :: q in s.errands.all ==> ErrandOk(s, s.errands.all[q]) }

  ghost predicate Owned(s: State) {
    && SerialsDistinct(s.incs)
    && (forall i :: i in s.incs ==> IncOk(s, i, s.incs[i]))
    && (forall k :: k in s.byId ==> IdPlaced(s.incs, k, s.byId[k]))
    && (forall k :: k in s.byName ==> NamePlaced(s.incs, k, s.byName[k]))
    && RaisersOk(s) && ErrandsOk(s)
  }

  /** A held id or name, and nothing else, carries the incarnation's serial. */
  lemma SerialNamesInc(s: State, i: nat, k: nat)
    requires Owned(s) && i in s.incs && !s.incs[i].pc.Drawing?
    ensures HoldsSerial(s.byId, k, s.incs[i].serial) <==> HoldsInc(s.byId, k, i)
    ensures HoldsSerial(s.byName, k, s.incs[i].serial) <==> HoldsInc(s.byName, k, i)
    ensures HoldsInc(s.byId, k, i) ==> k == s.incs[i].spec.id && s.incs[i].guard.Held?
    ensures HoldsInc(s.byName, k, i) ==> s.incs[i].spec.name == Some(k) && NameHeld(s.incs[i])
  {
    if k in s.byId {
      assert IdPlaced(s.incs, k, s.byId[k]);
      assert IncOk(s, s.byId[k].inc, s.incs[s.byId[k].inc]);
    }
    if k in s.byName {
      assert NamePlaced(s.incs, k, s.byName[k]);
      assert IncOk(s, s.byName[k].inc, s.incs[s.byName[k].inc]);
    }
  }

  /** From `s` to `s'` nothing of any incarnation but `i` changes. */
  predicate Local(s: State, s': State, i: nat) {
    && i in s'.incs && s'.incs == s.incs[i := s'.incs[i]]
    && LocalMap(s.byId, s'.byId, i) && LocalMap(s.byName, s'.byName, i)
    && s.nextSerial <= s'.nextSerial
  }

  /** What concerns incarnation `i` alone is right. */
  ghost predicate Mine(s: State, i: nat) {
    && i in s.incs && IncOk(s, i, s.incs[i])
    && (forall k :: HoldsInc(s.byId, k, i) ==> IdPlaced(s.incs, k, s.byId[k]))
    && (forall k :: HoldsInc(s.byName, k, i) ==> NamePlaced(s.incs, k, s.byName[k]))
  }

  /** A drawn serial is kept. */
  predicate SerialKept(s: State, s': State, i: nat)
    requires i in s'.incs
  {
    !s'.incs[i].pc.Drawing? ==>
      || s'.incs[i].serial == s.nextSerial
      || (i in s.incs && !s.incs[i].pc.Drawing? && s'.incs[i].serial == s.incs[i].serial)
  }

  /** A step of `i` that touches nothing else and leaves what is `i`'s right. */
  ghost predicate Tidy(s: State, s': State, i: nat) { Local(s, s', i) && Mine(s', i) && SerialKept(s, s', i) }

  lemma OwnedMine(s: State, i: nat)
    requires Owned(s) && i in s.incs
    ensures Mine(s, i)
  {
  }

  lemma TidyOwned(s: State, s': State, i: nat)
    requires Owned(s) && Tidy(s, s', i) && RaisersOk(s') && ErrandsOk(s')
    ensures Owned(s')
  {
    forall j | j in s'.incs && j != i ensures IncOk(s', j, s'.incs[j]) {
      assert IncOk(s, j, s.incs[j]);
    }
    forall k | k in s'.byId ensures IdPlaced(s'.incs, k, s'.byId[k]) {
      assert s'.byId[k].inc == i ==> HoldsInc(s'.byId, k, i);
    }
    forall k | k in s'.byName ensures NamePlaced(s'.incs, k, s'.byName[k]) {
      assert s'.byName[k].inc == i ==> HoldsInc(s'.byName, k, i);
    }
    forall j, l | j in s'.incs && l in s'.incs && !s'.incs[j].pc.Drawing? && !s'.incs[l].pc.Drawing?
      ensures s'.incs[j].serial == s'.incs[l].serial ==> j == l
    {
      assert j != i ==> IncOk(s, j, s.incs[j]);
      assert l != i ==> IncOk(s, l, s.incs[l]);
    }
  }

  /** A step that changes no entry, and only the lane, the history or the attach of its incarnation. */
  lemma QuietTidy(s: State, s': State, i: nat)
    requires Mine(s, i)
    requires s'.byId == s.byId && s'.byName == s.byName && s'.nextSerial == s.nextSerial
    requires i in s'.incs && s'.incs == s.incs[i := s'.incs[i]]
    requires var inc, inc' := s.incs[i], s'.incs[i];
             inc' == inc.(pc := inc'.pc, lane := inc'.lane, raisedDues := inc'.raisedDues, seenDues := inc'.seenDues)
    requires s'.incs[i].pc == s.incs[i].pc || (!Registering(s.incs[i].pc) && !s.incs[i].pc.TurnedAway? &&
                                               !Registering(s'.incs[i].pc) && !s'.incs[i].pc.TurnedAway?)
    ensures Tidy(s, s', i)
  {
  }

  lemma ClaimNameTidy(s: State, i: nat)
    requires Mine(s, i) && s.incs[i].pc.ClaimingName?
    ensures Tidy(s, RegisterStep(s, i), i)
  {
    var s' := RegisterStep(s, i);
    assert s'.byId == s.byId;
  }

  lemma ClaimIdTidy(s: State, i: nat)
    requires Mine(s, i) && s.incs[i].pc.ClaimingId?
    ensures Tidy(s, RegisterStep(s, i), i)
  {
    var s' := RegisterStep(s, i);
    assert s'.byName == s.byName;
  }

  /** The serial-checked accesses of `i` are local to it. */
  ghost predicate SerialLocal(s: State, i: nat)
    requires i in s.incs
  {
    var inc := s.incs[i];
    && LocalMap(s.byId, RemoveIf(s.byId, inc.spec.id, inc.serial), i)
    && LocalMap(s.byId, StoreAbort(s.byId, inc.spec.id, inc.serial, i), i)
    && LocalMap(s.byName, FreeName(s.byName, inc.spec.name, inc.serial), i)
    && (inc.spec.name.Some? ==> LocalMap(s.byName, StoreAbort(s.byName, inc.spec.name.value, inc.serial, i), i))
  }

  lemma SerialAccesses(s: State, i: nat)
    requires Owned(s) && i in s.incs && !s.incs[i].pc.Drawing?
    ensures SerialLocal(s, i)
  {
    var inc := s.incs[i];
    SerialNamesInc(s, i, inc.spec.id);
    AccessesAreLocal(s.byId, inc.spec.id, inc.serial, i);
    if inc.spec.name.Some? {
      SerialNamesInc(s, i, inc.spec.name.value);
      AccessesAreLocal(s.byName, inc.spec.name.value, inc.serial, i);
    }
  }

  lemma ReleaseTidy(s: State, i: nat)
    requires Mine(s, i) && SerialLocal(s, i) && s.incs[i].pc.Releasing?
    ensures Tidy(s, RegisterStep(s, i), i)
  {
    var s' := RegisterStep(s, i);
    assert s'.byId == s.byId;
    assert forall k :: !HoldsInc(s'.byName, k, i);
  }

  lemma RegisterTidy(s: State, i: nat)
    requires Owned(s) && i in s.incs && Registering(s.incs[i].pc)
    ensures Tidy(s, RegisterStep(s, i), i)
  {
    OwnedMine(s, i);
    match s.incs[i].pc
    case Drawing =>
    case ClaimingName => ClaimNameTidy(s, i);
    case ClaimingId => ClaimIdTidy(s, i);
    case Releasing => SerialAccesses(s, i); ReleaseTidy(s, i);
  }

  lemma StoreIdTidy(s: State, i: nat)
    requires Mine(s, i) && SerialLocal(s, i) && s.incs[i].pc.Storing?
    ensures Tidy(s, StoreIdStep(s, i), i)
  {
    assert StoreIdStep(s, i).byName == s.byName;
  }

  lemma StoreNameTidy(s: State, i: nat, found: bool)
    requires Mine(s, i) && SerialLocal(s, i) && s.incs[i].pc == StoringName(found)
    ensures Tidy(s, StoreNameStep(s, i, found), i)
  {
    assert StoreNameStep(s, i, found).byId == s.byId;
  }

  lemma AttachTidy(s: State, i: nat)
    requires Owned(s) && i in s.incs && !Registering(s.incs[i].pc) && !s.incs[i].pc.TurnedAway?
    ensures Tidy(s, AttachStep(s, i), i)
  {
    OwnedMine(s, i);
    SerialAccesses(s, i);
    if s.incs[i].pc.Storing? {
      StoreIdTidy(s, i);
    } else if s.incs[i].pc.StoringName? {
      StoreNameTidy(s, i, s.incs[i].pc.found);
    } else {
      QuietTidy(s, ReadStep(s, i), i);
    }
  }

  lemma GuardTidy(s: State, i: nat)
    requires Mine(s, i) && SerialLocal(s, i) && (s.incs[i].guard.Held? || s.incs[i].guard.FreeingName?)
    ensures Tidy(s, GuardStep(s, i), i)
  {
    var s' := GuardStep(s, i);
    assert s.incs[i].guard.Held? ==> s'.byName == s.byName && forall k :: !HoldsInc(s'.byId, k, i);
    assert s.incs[i].guard.FreeingName? ==> s'.byId == s.byId && forall k :: !HoldsInc(s'.byName, k, i);
  }

  lemma DeclareTidy(s: State, r: nat, clock: nat)
    requires r in s.raisers && Mine(s, s.raisers[r].inc) && clock >= 1
    ensures Tidy(s, DeclareStep(s, r, clock), s.raisers[r].inc)
  {
    var x := s.raisers[r];
    var i := x.inc;
    var inc := s.incs[i];
    var k := KeyOf(x.key);
    if HoldsInc(MapOf(s, x.key), k, i) {
      var e := MapOf(s, x.key)[k];
      DeclareRecords(e, if x.key.ById? then inc.idDues else inc.nameDues, AskedDue(clock, x.window, e.grace));
    }
  }

  lemma RaiserTidy(s: State, r: nat)
    requires r in s.raisers && Mine(s, s.raisers[r].inc)
    requires s.raisers[r].pc.Declaring? ==> s.raisers[r].pc.clock >= 1
    ensures Tidy(s, RaiserStep(s, r), s.raisers[r].inc)
  {
    if s.raisers[r].pc.Declaring? {
      DeclareTidy(s, r, s.raisers[r].pc.clock);
    } else {
      QuietTidy(s, RaiserStep(s, r), s.raisers[r].inc);
    }
  }

  lemma ErrandTidy(s: State, q: nat)
    requires q in s.errands.all && ErrandOk(s, s.errands.all[q]) && Mine(s, s.errands.all[q].inc)
    ensures Tidy(s, ErrandStep(s, q), s.errands.all[q].inc)
  {
    var s', i := ErrandStep(s, q), s.errands.all[q].inc;
    assert s'.incs == s.incs[i := s'.incs[i]];
    QuietTidy(s, s', i);
  }

  /** The incarnation an action is started on. */
  function Owner(s: State, a: Action): Option<nat> {
    match a
    case Spawn(i, _) => Some(i)
    case Advance(i) => Some(i)
    case DropGuard(i) => Some(i)
    case NewRaiser(_, _, i, _) => Some(i)
    case AdvanceRaiser(r) => if r in s.raisers then Some(s.raisers[r].inc) else None
    case NewErrand(_, _, i, _) => Some(i)
    case AdvanceErrand(q) => if q in s.errands.all then Some(s.errands.all[q].inc) else None
    case UseLane(i, _) => Some(i)
    case Tick(_) => None
  }

  lemma StepTidy(s: State, a: Action)
    requires Owned(s) && Next(s, a).Some? && Owner(s, a).Some?
    ensures Tidy(s, Next(s, a).value, Owner(s, a).value)
  {
    hide Tidy, Mine, SerialLocal;
    match a
    case Advance(i) =>
      if Registering(s.incs[i].pc) {
        RegisterTidy(s, i);
      } else {
        AttachTidy(s, i);
      }
    case DropGuard(i) => OwnedMine(s, i); SerialAccesses(s, i); GuardTidy(s, i);
    case AdvanceRaiser(r) => OwnedMine(s, s.raisers[r].inc); RaiserTidy(s, r);
    case NewRaiser(_, _, i, _) => OwnedMine(s, i); QuietTidy(s, Next(s, a).value, i);
    case NewErrand(_, _, i, _) => OwnedMine(s, i); QuietTidy(s, Next(s, a).value, i);
    case AdvanceErrand(q) => OwnedMine(s, s.errands.all[q].inc); ErrandTidy(s, q);
    case UseLane(i, _) => OwnedMine(s, i); QuietTidy(s, Next(s, a).value, i);
    case Spawn(i, spec) => SpawnTidy(s, i, spec);
  }

  lemma SpawnTidy(s: State, i: nat, spec: Spec)
    requires Owned(s) && Next(s, Spawn(i, spec)).Some?
    ensures Tidy(s, Next(s, Spawn(i, spec)).value, i)
  {
  }

  /** A step of `i` that moves no raiser and no other incarnation, and leaves the lane of `i`. */
  predicate OnlyMoves(s: State, s': State, i: nat) {
    && i in s.incs && i in s'.incs && s'.incs == s.incs[i := s'.incs[i]] && s'.incs[i].lane == s.incs[i].lane
    && s'.raisers == s.raisers
  }

  /** A spawn's step, a guard's or an errand's moves no raiser; an attach may arm its own incarnation's abort. */
  lemma RegisterShape(s: State, i: nat)
    requires i in s.incs
    ensures OnlyMoves(s, RegisterStep(s, i), i) && RegisterStep(s, i).armed == s.armed
  {
    hide FreeName, Fresh;
  }

  lemma ReadShape(s: State, i: nat)
    requires i in s.incs
    ensures OnlyMoves(s, ReadStep(s, i), i) && s.armed <= ReadStep(s, i).armed
    ensures forall arm :: arm in ReadStep(s, i).armed ==> arm in s.armed || arm.task == i
  {
    hide ReadTo, AttachDelay;
  }

  lemma AttachShape(s: State, i: nat)
    requires i in s.incs
    ensures OnlyMoves(s, AttachStep(s, i), i) && s.armed <= AttachStep(s, i).armed
    ensures forall arm :: arm in AttachStep(s, i).armed ==> arm in s.armed || arm.task == i
  {
    hide ReadStep, StoreAbort, HoldsSerial;
    ReadShape(s, i);
  }

  lemma GuardShape(s: State, i: nat)
    requires i in s.incs
    ensures GuardStep(s, i).raisers == s.raisers && GuardStep(s, i).armed == s.armed
  {
  }

  lemma ErrandShape(s: State, q: nat)
    requires q in s.errands.all && (s.errands.all[q].pc.Found? ==> s.errands.all[q].pc.inc in s.incs)
    ensures ErrandStep(s, q).raisers == s.raisers && ErrandStep(s, q).armed == s.armed
    ensures ErrandStep(s, q).incs.Keys == s.incs.Keys
  {
    hide TryRaise;
  }

  /** A raiser's step moves that raiser alone, and keeps its target. */
  predicate OneMoved(s: State, s': State, r: nat) {
    && r in s.raisers && r in s'.raisers && s'.raisers == s.raisers[r := s'.raisers[r]]
    && s'.raisers[r].inc == s.raisers[r].inc && s.armed <= s'.armed && s'.incs.Keys == s.incs.Keys
  }

  lemma DeclareShape(s: State, r: nat, clock: nat)
    requires r in s.raisers && s.raisers[r].inc in s.incs
    ensures OneMoved(s, DeclareStep(s, r, clock), r) && DeclareStep(s, r, clock).raisers[r].pc.Raising?
  {
    hide Declare, AskedDue;
  }

  lemma RaiserShape(s: State, r: nat)
    requires r in s.raisers && s.raisers[r].inc in s.incs
    ensures OneMoved(s, RaiserStep(s, r), r)
    ensures RaiserStep(s, r).raisers[r].pc.Declaring? ==>
              RaiserStep(s, r).raisers[r].pc == s.raisers[r].pc || RaiserStep(s, r).raisers[r].pc.clock >= 1
  {
    hide TryRaise, DeclareStep;
    if s.raisers[r].pc.Declaring? {
      DeclareShape(s, r, s.raisers[r].pc.clock);
    }
  }

  lemma RaisersKept(s: State, a: Action)
    requires RaisersOk(s) && Next(s, a).Some?
    ensures RaisersOk(Next(s, a).value)
  {
    hide RegisterStep, AttachStep, GuardStep, ErrandStep, RaiserStep;
    match a
    case Advance(i) => RegisterShape(s, i); AttachShape(s, i);
    case DropGuard(i) => GuardShape(s, i); GuardKeeps(s, i);
    case AdvanceErrand(q) => ErrandShape(s, q);
    case AdvanceRaiser(r) => RaiserShape(s, r);
    case _ =>
  }

  lemma GuardKeeps(s: State, i: nat)
    requires i in s.incs
    ensures GuardStep(s, i).incs.Keys == s.incs.Keys
  {
  }

  lemma OneErrandKept(s: State, s': State, q: nat, x: Errand)
    requires ErrandsOk(s) && s'.errands.all == s.errands.all[q := x] && s'.incs.Keys == s.incs.Keys && ErrandOk(s', x)
    ensures ErrandsOk(s')
  {
    forall p | p in s'.errands.all ensures ErrandOk(s', s'.errands.all[p]) {
      assert p != q ==> ErrandOk(s, s.errands.all[p]);
    }
  }

  /** What an errand finds under its target's id is its target's. */
  lemma ErrandFinds(s: State, x: Errand)
    requires Owned(s) && x.inc in s.incs && HoldsInc(s.byId, x.id, x.inc)
    ensures s.byId[x.id].abort.Some? ==> s.byId[x.id].abort.value == x.inc
  {
    assert IdPlaced(s.incs, x.id, s.byId[x.id]);
    assert IncOk(s, x.inc, s.incs[x.inc]);
  }

  lemma OwnedErrands(s: State)
    requires Owned(s)
    ensures ErrandsOk(s)
  {
  }

  lemma ErrandKept(s: State, q: nat)
    requires Owned(s) && Next(s, AdvanceErrand(q)).Some?
    ensures ErrandsOk(ErrandStep(s, q))
  {
    hide Owned, TryRaise;
    var s', x := ErrandStep(s, q), s.errands.all[q];
    OwnedErrands(s);
    assert ErrandOk(s, x);
    if x.pc.LookingUp? && HoldsInc(s.byId, x.id, x.inc) {
      ErrandFinds(s, x);
    }
    ErrandShape(s, q);
    OneErrandKept(s, s', q, s'.errands.all[q]);
  }

  lemma ErrandsKept(s: State, a: Action)
    requires Owned(s) && Next(s, a).Some?
    ensures ErrandsOk(Next(s, a).value)
  {
    if a.AdvanceErrand? {
      ErrandKept(s, a.q);
    } else if Owner(s, a).Some? {
      StepTidy(s, a);
      OtherErrands(s, a);
      ErrandsStay(s, Next(s, a).value, Owner(s, a).value);
    }
  }

  /** A step but an errand's own changes no errand that there was, and a new one has found nothing yet. */
  lemma OtherErrands(s: State, a: Action)
    requires Next(s, a).Some? && !a.AdvanceErrand?
    ensures var s' := Next(s, a).value;
            forall p :: p in s'.errands.all ==> SameErrand(s, p, s'.errands.all[p]) || NewOne(s', s'.errands.all[p])
  {
    if a.NewErrand? {
    } else {
      assert Next(s, a).value.errands == s.errands;
    }
  }

  predicate SameErrand(s: State, p: nat, x: Errand) { p in s.errands.all && s.errands.all[p] == x }

  predicate NewOne(s: State, x: Errand) { x.pc.LookingUp? && x.inc in s.incs }

  lemma ErrandsStay(s: State, s': State, i: nat)
    requires ErrandsOk(s) && Local(s, s', i)
    requires forall p :: p in s'.errands.all ==> SameErrand(s, p, s'.errands.all[p]) || NewOne(s', s'.errands.all[p])
    ensures ErrandsOk(s')
  {
    forall p | p in s'.errands.all ensures ErrandOk(s', s'.errands.all[p]) {
      assert SameErrand(s, p, s'.errands.all[p]) ==> ErrandOk(s, s.errands.all[p]);
    }
  }

  lemma TickOwned(s: State, nanos: nat)
    requires Owned(s)
    ensures Owned(s.(now := s.now + nanos))
  {
    var s' := s.(now := s.now + nanos);
    forall i | i in s'.incs ensures IncOk(s', i, s'.incs[i]) {
      assert IncOk(s, i, s.incs[i]);
    }
  }

  lemma StepOwned(s: State, a: Action)
    requires Owned(s) && Next(s, a).Some?
    ensures Owned(Next(s, a).value)
  {
    if a.Tick? {
      TickOwned(s, a.nanos);
    } else {
      StepTidy(s, a);
      RaisersKept(s, a);
      ErrandsKept(s, a);
      TidyOwned(s, Next(s, a).value, Owner(s, a).value);
    }
  }
}
