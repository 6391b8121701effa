/** The system object: its gate and its two registry maps, one whole call at a time. */
module System {
  import opened Base
  import opened Gate
  import opened Registry

  datatype SpawnError = SystemShuttingDown | NameTaken(name: nat) | DuplicateChild(id: nat)

  datatype Result = Registered(serial: nat) | Turned(error: SpawnError)

  /** What a phase means, in every reachable state of the gate. */
  predicate GateOk(g: Gate) {
    && (g.phase == Active <==> g == OPEN)
    && (g.phase == Defunct <==> g.inFlight == 0 && g.completed)
    && (g.deadline.Some? ==> g.phase == ShuttingDown)
  }

  /** Every registration has a serial of its own, drawn already. */
  predicate SerialsOk(m: map<nat, Entry>, next: nat) {
    && (forall k :: k in m ==> m[k].serial < next)
    && (forall j, k :: j in m && k in m && m[j].serial == m[k].serial ==> j == k)
  }

  /** A registration in both maps is the same incarnation in both. */
  predicate SameInc(a: map<nat, Entry>, b: map<nat, Entry>) {
    forall j, k :: j in a && k in b && a[j].serial == b[k].serial ==> a[j].inc == b[k].inc
  }

  /** The gate is so after every run of entries, ends, folds and reactivations. */
  lemma {:induction false} ReachableGateOk(events: seq<Event>)
    requires After(events).Some?
    ensures GateOk(After(events).value)
  {
    PhaseIsByCount(events);
    PhasesMean(events);
  }

  /** A registration under a key that is free, with the serial just drawn. */
  lemma AddedEntry(m: map<nat, Entry>, next: nat, k: nat, e: Entry)
    requires SerialsOk(m, next) && k !in m && e.serial == next
    ensures SerialsOk(m[k := e], next + 1) && SerialsOk(m, next + 1) && RemoveIf(m[k := e], k, next) == m
  {
  }

  lemma AddedToBoth(a: map<nat, Entry>, b: map<nat, Entry>, next: nat, id: nat, name: Option<nat>, e: Entry)
    requires SerialsOk(a, next) && SerialsOk(b, next) && SameInc(a, b) && e.serial == next
    ensures var b' := if name.Some? then b[name.value := e] else b; SameInc(a, b') && SameInc(a[id := e], b')
    ensures SerialsOk(a, next + 1) && SerialsOk(b, next + 1)
  {
  }

  class ActorSystem {
    var gate: Gate
    var byId: map<nat, Entry>
    var byName: map<nat, Entry>
    var nextSerial: nat

    ghost predicate Valid()
      reads this
    {
      GateOk(gate) && SerialsOk(byId, nextSerial) && SerialsOk(byName, nextSerial) && SameInc(byId, byName)
    }

    constructor ()
      ensures Valid() && gate == OPEN && byId == map[] && byName == map[]
    {
      gate, byId, byName, nextSerial := OPEN, map[], map[], 0;
    }

    /** Which refusal a registration meets, if any: the phase comes before the name, the name before the id. */
    function Refusal(id: nat, name: Option<nat>): Option<SpawnError>
      reads this
    {
      if gate.phase != Active then Some(SystemShuttingDown)
      else if name.Some? && name.value in byName then Some(NameTaken(name.value))
      else if id in byId then Some(DuplicateChild(id))
      else None
    }

    /** A registration under an id and maybe a name. It is refused exactly when the system is not `Active`, or else the
        name is taken, or else the id is. A refused one leaves no trace but a drawn serial; one that
        lands is under both with a serial no entry ever had. */
    method RegisterActor(id: nat, name: Option<nat>, inc: nat, isRoot: bool, grace: nat) returns (r: Result)
      requires Valid()
      modifies this`byId, this`byName, this`nextSerial
      ensures Valid()
      ensures r == Turned(SystemShuttingDown) <==> gate.phase != Active
      ensures forall n: nat :: r == Turned(NameTaken(n)) <==>
                                 gate.phase == Active && name == Some(n) && n in old(byName)
      ensures forall i: nat :: r == Turned(DuplicateChild(i)) <==>
                            && gate.phase == Active && i == id && id in old(byId)
                            && (name.Some? ==> name.value !in old(byName))
      ensures (if r.Turned? then Some(r.error) else None) == old(Refusal(id, name))
      ensures r.Turned? ==> byId == old(byId) && byName == old(byName)
      ensures r.Registered? ==>
                && r.serial == old(nextSerial) < nextSerial
                && HoldsSerial(byId, id, r.serial) && (name.Some? ==> HoldsSerial(byName, name.value, r.serial))
                && byId == old(byId)[id := Entry(inc, r.serial, isRoot, None, 0, grace)]
                && (name.Some? ==> byName == old(byName)[name.value := Entry(inc, r.serial, isRoot, None, 0, grace)])
                && RemoveIf(byId, id, r.serial) == old(byId)
                && (if name.Some? then RemoveIf(byName, name.value, r.serial) else byName) == old(byName)
    {
      hide SerialsOk, SameInc;
      if gate.phase != Active {
        return Turned(SystemShuttingDown);
      }
      var serial := nextSerial;
      nextSerial := nextSerial + 1;
      var entry := Fresh(inc, serial, isRoot, grace);
      AddedToBoth(byId, byName, serial, id, name, entry);
      if name.Some? {
        if name.value in byName {
          return Turned(NameTaken(name.value));
        }
        AddedEntry(byName, serial, name.value, entry);
        byName := byName[name.value := entry];
      }
      if id in byId {
        if name.Some? {
          UnregisterByName(name.value, serial);
        }
        return Turned(DuplicateChild(id));
      }
      byId := byId[id := entry];
      AddedEntry(old(byId), serial, id, entry);
      r := Registered(serial);
    }

    /** The entry under the id goes if it is of this registration, and a later one under the id stays. */
    method UnregisterById(id: nat, serial: nat)
      modifies this`byId
      ensures byId == RemoveIf(old(byId), id, serial) && !HoldsSerial(byId, id, serial)
      ensures old(Valid()) ==> Valid()
    {
      if id in byId && byId[id].serial == serial {
        byId := byId - {id};
      }
    }

    method UnregisterByName(name: nat, serial: nat)
      modifies this`byName
      ensures byName == RemoveIf(old(byName), name, serial) && !HoldsSerial(byName, name, serial)
      ensures old(Valid()) ==> Valid()
    {
      if name in byName && byName[name].serial == serial {
        byName := byName - {name};
      }
    }

    /** The guard of a registration is dropped: nothing of it is left, and nothing of any other has changed. */
    method DropGuard(id: nat, name: Option<nat>, serial: nat)
      requires Valid()
      modifies this`byId, this`byName
      ensures Valid()
      ensures !HoldsSerial(byId, id, serial) && (name.Some? ==> !HoldsSerial(byName, name.value, serial))
      ensures forall k :: k in old(byId) && old(byId)[k].serial != serial ==> k in byId && byId[k] == old(byId)[k]
      ensures forall k :: k in old(byName) && old(byName)[k].serial != serial ==>
          k in byName && byName[k] == old(byName)[k]
      ensures byId.Keys <= old(byId).Keys && byName.Keys <= old(byName).Keys
    {
      UnregisterById(id, serial);
      if name.Some? {
        UnregisterByName(name.value, serial);
      }
    }

    /** A `Kill` is declared on the entry under the id, if it is of the incarnation meant: due the window given, or
        else the entry's grace, after the clock, in 64 bits. */
    method DeclareKill(id: nat, inc: nat, now: nat, window: Option<nat>)
      requires Valid()
      modifies this`byId
      ensures Valid()
      ensures HoldsInc(old(byId), id, inc) ==>
                var was, clock := old(byId)[id].killDue, Max(1, Min(now, U64_MAX));
                var wait := if window.Some? then window.value else old(byId)[id].grace;
                var due := Min(clock + Min(wait, U64_MAX), U64_MAX);
                && id in byId && byId == old(byId)[id := old(byId)[id].(killDue := byId[id].killDue)]
                && forall ds: set<nat> :: Records(was, ds) ==> Records(byId[id].killDue, ds + {due})
      ensures !HoldsInc(old(byId), id, inc) ==> byId == old(byId)
    {
      if id in byId && byId[id].inc == inc {
        ghost var was := byId[id];
        var due := AskedDue(KillClock(now), window, byId[id].grace);
        byId := byId[id := Declare(byId[id], due)];
        forall ds | Records(was.killDue, ds) ensures Records(byId[id].killDue, ds + {due}) {
          DeclareRecords(was, ds, due);
        }
      }
    }

    /** The earliest deadline declared on the registration through either map. */
    method DeclaredKillDue(id: nat, name: Option<nat>, serial: nat) returns (due: nat)
      ensures var a := if HoldsSerial(byId, id, serial) then byId[id].killDue else 0;
              var b :=
                if name.Some? && HoldsSerial(byName, name.value, serial) then byName[name.value].killDue else 0;
              forall ds, es :: Records(a, ds) && Records(b, es) ==> Records(due, ds + es)
    {
      var a := DueOf(byId, id, serial);
      var b := if name.Some? then DueOf(byName, name.value, serial) else 0;
      due := EarlierDue(a, b);
      forall ds, es | Records(a, ds) && Records(b, es) ensures Records(due, ds + es) {
        EarlierDueRecords(a, ds, b, es);
      }
    }

    /** A shutdown enters: registrations are refused from here on. */
    method EnterShutdown()
      requires Valid()
      modifies this`gate
      ensures Valid() && gate == Enter(old(gate)) && forall id, name :: Refusal(id, name) == Some(SystemShuttingDown)
    {
      gate := gate.(phase := ShuttingDown, inFlight := gate.inFlight + 1);
    }

    /** A shutdown ends. The last one leaves a system that can be reactivated exactly when one has completed. */
    method LeaveShutdown(completed: bool)
      requires Valid() && gate.inFlight > 0
      modifies this`gate
      ensures Valid() && gate == Leave(old(gate), completed)
      ensures CanReactivate(gate) <==> old(gate.inFlight) == 1 && (old(gate.completed) || completed)
    {
      gate := gate.(inFlight := gate.inFlight - 1, completed := gate.completed || completed);
      if gate.inFlight == 0 && gate.completed {
        gate := gate.(phase := Defunct, deadline := None);
      }
    }

    /** Only a defunct system is reactivated, and it is as it was when it started; any other is left alone. */
    method ReactivateSystem() returns (done: bool)
      requires Valid()
      modifies this`gate
      ensures Valid() && done == old(gate.inFlight == 0 && gate.completed)
      ensures gate == if done then OPEN else old(gate)
    {
      if gate.inFlight != 0 || gate.phase != Defunct {
        return false;
      }
      gate := gate.(completed := false, phase := Active);
      done := true;
    }

    /** A sweep folds its deadline into the system's: the held one never rises, and it is not lowered onto an instant
        already past. */
    method FoldSweepDeadline(own: nat, now: nat) returns (folded: nat)
      requires Valid() && gate.inFlight > 0
      modifies this`gate
      ensures Valid() && gate == old(gate).(deadline := Some(folded))
      ensures old(gate.deadline).Some? ==> folded <= old(gate.deadline).value
      ensures old(gate.deadline) != Some(folded) ==> now < folded
      ensures folded <= Max(own, now + 1) && (folded == Max(own, now + 1) || old(gate.deadline) == Some(folded))
    {
      folded := Lower(gate.deadline, Floor(own, now));
      gate := gate.(deadline := Some(folded));
    }
  }
}
