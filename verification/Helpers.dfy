/** The helper tasks of a system: one slot for each runtime they run on, counting those live, and a guard for each
    task that records its end. Every method of the class is one atomic step of some thread, so what the methods keep
    holds under every interleaving of starts and ends. */
module Helpers {
  datatype HelperEnd = Finished | Panicked | Cancelled(dropped: nat)

  /** A guard holds its slot from `Reserved` to `Recorded`; the slot counts it in `Counted` and `Recording`. */
  datatype Stage = Reserved | Counted | Recording | Recorded | Dropped

  datatype Guard = Guard(rt: nat, slot: nat, stage: Stage)

  predicate CountsIn(g: Guard) { g.stage == Counted || g.stage == Recording }

  predicate HasEnded(g: Guard) { g.stage == Recording || g.stage == Recorded || g.stage == Dropped }

  /** The guards the slot should count. */
  function CountedOn(guards: map<nat, Guard>, slot: nat): set<nat> {
    set g | g in guards && CountsIn(guards[g]) && guards[g].slot == slot
  }

  /** Every guard made and not yet recorded. */
  function LiveGuards(guards: map<nat, Guard>): set<nat> { set g | g in guards && CountsIn(guards[g]) }

  /** The guards that hold the slot. */
  function Holders(guards: map<nat, Guard>, slot: nat): set<nat> {
    set g | g in guards && guards[g].stage != Dropped && guards[g].slot == slot
  }

  function Moved(guards: map<nat, Guard>, g: nat, stage: Stage): map<nat, Guard>
    requires g in guards
  {
    guards[g := guards[g].(stage := stage)]
  }

  lemma MovedTwice(guards: map<nat, Guard>, g: nat, first: Stage, second: Stage)
    requires g in guards
    ensures Moved(Moved(guards, g, first), g, second) == Moved(guards, g, second)
  {
  }

  /** Only `g` may differ between the two. */
  predicate SameBut(a: map<nat, Guard>, b: map<nat, Guard>, g: nat) {
    g in b && (forall h :: h in b && h != g ==> h in a && a[h] == b[h]) && (forall h :: h in a && h != g ==> h in b)
  }

  lemma CountElsewhere(a: map<nat, Guard>, b: map<nat, Guard>, g: nat, k: nat)
    requires SameBut(a, b, g) && (g in a ==> a[g].slot == b[g].slot) && k != b[g].slot
    ensures CountedOn(b, k) == CountedOn(a, k)
  {
  }

  lemma CardBut(a: set<nat>, b: set<nat>, g: nat)
    requires a - {g} == b - {g}
    ensures |a| - (if g in a then 1 else 0) == |b| - (if g in b then 1 else 0)
  {
    assert |a - {g}| == |a| - (if g in a then 1 else 0);
    assert |b - {g}| == |b| - (if g in b then 1 else 0);
  }

  /** Starting or ending to count `g` moves its slot's count by one. */
  lemma CountHere(a: map<nat, Guard>, b: map<nat, Guard>, g: nat)
    requires SameBut(a, b, g) && (g in a ==> a[g].slot == b[g].slot)
    ensures var before, after := g in a && CountsIn(a[g]), CountsIn(b[g]);
            |CountedOn(b, b[g].slot)| ==
            |CountedOn(a, b[g].slot)| - (if before then 1 else 0) + (if after then 1 else 0)
  {
    var was, now := CountedOn(a, b[g].slot), CountedOn(b, b[g].slot);
    forall h | h != g ensures h in was <==> h in now {
    }
    assert was - {g} == now - {g};
    CardBut(was, now, g);
  }

  /** Only the slot of `g` counts differently. */
  lemma CountMoves(a: map<nat, Guard>, b: map<nat, Guard>, g: nat)
    requires SameBut(a, b, g) && (g in a ==> a[g].slot == b[g].slot)
    ensures forall k :: k != b[g].slot ==> CountedOn(b, k) == CountedOn(a, k)
    ensures var before, after := g in a && CountsIn(a[g]), CountsIn(b[g]);
            |CountedOn(b, b[g].slot)| ==
            |CountedOn(a, b[g].slot)| - (if before then 1 else 0) + (if after then 1 else 0)
  {
    forall k | k != b[g].slot ensures CountedOn(b, k) == CountedOn(a, k) {
      CountElsewhere(a, b, g, k);
    }
    CountHere(a, b, g);
  }

  predicate Keeps(byRuntime: map<nat, nat>, g: Guard) { g.rt in byRuntime && byRuntime[g.rt] == g.slot }

  /** The runtimes have slots of their own. */
  predicate SlotsOk(byRuntime: map<nat, nat>, live: map<nat, nat>, nextSlot: nat) {
    && (forall r :: r in byRuntime ==> byRuntime[r] in live)
    && (forall r, q :: r in byRuntime && q in byRuntime && byRuntime[r] == byRuntime[q] ==> r == q)
    && (forall k :: k in live ==> k < nextSlot)
  }

  /** A guard's slot is its runtime's until the guard lets go of it. */
  predicate GuardsOk(byRuntime: map<nat, nat>, live: map<nat, nat>, guards: map<nat, Guard>, nextGuard: nat) {
    forall g :: g in guards ==>
                  g < nextGuard && guards[g].slot in live
                      && (guards[g].stage != Dropped ==> Keeps(byRuntime, guards[g]))
  }

  /** Each slot counts its guards. */
  predicate CountsOk(live: map<nat, nat>, guards: map<nat, Guard>) {
    forall k :: k in live ==> live[k] == |CountedOn(guards, k)|
  }

  /** The slots that some guard holds. */
  function Pruned(byRuntime: map<nat, nat>, guards: map<nat, Guard>): map<nat, nat> {
    map r | r in byRuntime && Holders(guards, byRuntime[r]) != {} :: byRuntime[r]
  }

  /** Some guard has not let go of the slot. */
  predicate InUse(guards: map<nat, Guard>, slot: nat) {
    exists g :: g in guards && guards[g].slot == slot && guards[g].stage != Dropped
  }

  lemma OneMoreInUse(guards: map<nat, Guard>, g: nat, guard: Guard, slot: nat)
    requires g !in guards && (InUse(guards, slot) || (guard.slot == slot && guard.stage != Dropped))
    ensures InUse(guards[g := guard], slot)
  {
    if InUse(guards, slot) {
      var h :| h in guards && guards[h].slot == slot && guards[h].stage != Dropped;
      assert h in guards[g := guard];
    } else {
      assert g in guards[g := guard];
    }
  }

  lemma PruneKeeps(byRuntime: map<nat, nat>, live: map<nat, nat>, guards: map<nat, Guard>, nextGuard: nat)
    requires GuardsOk(byRuntime, live, guards, nextGuard)
    ensures GuardsOk(Pruned(byRuntime, guards), live, guards, nextGuard)
    ensures forall r :: r in byRuntime && r !in Pruned(byRuntime, guards) ==> CountedOn(guards, byRuntime[r]) == {}
    ensures forall r :: r in Pruned(byRuntime, guards) ==> InUse(guards, byRuntime[r])
  {
    forall r | r in Pruned(byRuntime, guards) ensures InUse(guards, byRuntime[r]) {
      var g :| g in Holders(guards, byRuntime[r]);
    }
    forall g | g in guards && guards[g].stage != Dropped ensures Keeps(Pruned(byRuntime, guards), guards[g]) {
      assert g in Holders(guards, guards[g].slot);
    }
    forall r | r in byRuntime && r !in Pruned(byRuntime, guards) ensures CountedOn(guards, byRuntime[r]) == {} {
      assert forall g :: g in CountedOn(guards, byRuntime[r]) ==> g in Holders(guards, byRuntime[r]);
    }
  }

  lemma NewSlot(byRuntime: map<nat, nat>, live: map<nat, nat>, guards: map<nat, Guard>, nextGuard: nat, slot: nat,
                rt: nat)
    requires SlotsOk(byRuntime, live, slot) && GuardsOk(byRuntime, live, guards, nextGuard) && CountsOk(live, guards)
    requires rt !in byRuntime
    ensures SlotsOk(byRuntime[rt := slot], live[slot := 0], slot + 1)
    ensures GuardsOk(byRuntime[rt := slot], live[slot := 0], guards, nextGuard) && CountsOk(live[slot := 0], guards)
  {
    assert CountedOn(guards, slot) == {};
  }

  /** A guard moves from one stage to the next and its slot's count with it. */
  lemma GuardMoves(byRuntime: map<nat, nat>, live: map<nat, nat>, guards: map<nat, Guard>, nextGuard: nat, g: nat,
                   stage: Stage)
    requires g in guards && GuardsOk(byRuntime, live, guards, nextGuard) && CountsOk(live, guards)
    requires guards[g].stage != Dropped
    ensures var k, guards' := guards[g].slot, Moved(guards, g, stage);
            && k in live && (CountsIn(guards[g]) ==> live[k] > 0)
            && var n: int := live[k] - (if CountsIn(guards[g]) then 1 else 0) + (if CountsIn(guards'[g]) then 1 else 0);
            && n >= 0 && GuardsOk(byRuntime, live[k := n], guards', nextGuard) && CountsOk(live[k := n], guards')
  {
    CountMoves(guards, Moved(guards, g, stage), g);
    if CountsIn(guards[g]) {
      assert g in CountedOn(guards, guards[g].slot);
    }
  }

  lemma SlotsStay(byRuntime: map<nat, nat>, live: map<nat, nat>, nextSlot: nat, slot: nat, n: nat)
    requires SlotsOk(byRuntime, live, nextSlot) && slot in live
    ensures SlotsOk(byRuntime, live[slot := n], nextSlot)
  {
  }

  function Rank(s: Stage): nat {
    match s
    case Reserved => 0
    case Counted => 1
    case Recording => 2
    case Recorded => 3
    case Dropped => 4
  }

  /** The guards went on, each in its order. */
  predicate GoOn(a: map<nat, Guard>, b: map<nat, Guard>) {
    && a.Keys == b.Keys
    && forall g :: g in a ==> b[g] == a[g].(stage := b[g].stage) && Rank(a[g].stage) <= Rank(b[g].stage)
  }

  lemma GoOnTrans(a: map<nat, Guard>, b: map<nat, Guard>, c: map<nat, Guard>)
    requires GoOn(a, b) && GoOn(b, c)
    ensures GoOn(a, c)
  {
  }

  /** The helpers counted from first to last, and those counted at some point, when guards went on from `a` to `b`. */
  function LiveThroughout(a: map<nat, Guard>, b: map<nat, Guard>): set<nat>
    requires GoOn(a, b)
  {
    set g | g in a && CountsIn(a[g]) && CountsIn(b[g])
  }

  function LiveAtSomePoint(a: map<nat, Guard>, b: map<nat, Guard>): set<nat>
    requires GoOn(a, b)
  {
    set g | g in a && Rank(a[g].stage) <= 2 && Rank(b[g].stage) >= 1
  }

  /** Of the runtimes seen, `counted` has every helper live all along and none that was not live at some point. */
  predicate SeenSo(a: map<nat, Guard>, b: map<nat, Guard>, seen: set<nat>, counted: set<nat>)
    requires GoOn(a, b)
  {
    && counted <= LiveAtSomePoint(a, b) && (forall g :: g in counted ==> a[g].rt in seen)
    && forall g :: g in LiveThroughout(a, b) && a[g].rt in seen ==> g in counted
  }

  lemma StaysSo(a: map<nat, Guard>)
    ensures GoOn(a, a)
  {
  }

  lemma OneGoesOn(a: map<nat, Guard>, g: nat, stage: Stage)
    requires g in a && Rank(a[g].stage) <= Rank(stage)
    ensures GoOn(a, Moved(a, g, stage))
  {
  }

  lemma NoneSeen(a: map<nat, Guard>)
    requires GoOn(a, a)
    ensures SeenSo(a, a, {}, {})
  {
  }

  lemma SeenStays(a: map<nat, Guard>, b: map<nat, Guard>, c: map<nat, Guard>, seen: set<nat>, counted: set<nat>)
    requires GoOn(a, b) && GoOn(b, c) && GoOn(a, c) && SeenSo(a, b, seen, counted)
    ensures SeenSo(a, c, seen, counted)
  {
    forall g | g in LiveThroughout(a, c) ensures g in LiveThroughout(a, b) {
      assert Rank(a[g].stage) <= Rank(b[g].stage) <= Rank(c[g].stage);
    }
    forall g | g in counted ensures g in LiveAtSomePoint(a, c) {
      assert g in LiveAtSomePoint(a, b);
    }
  }

  lemma SeenMore(byRuntime: map<nat, nat>, live: map<nat, nat>, nextSlot: nat, a: map<nat, Guard>, b: map<nat, Guard>,
                 nextGuard: nat, seen: set<nat>, counted: set<nat>, r: nat)
    requires SlotsOk(byRuntime, live, nextSlot) && GuardsOk(byRuntime, live, b, nextGuard) && CountsOk(live, b)
    requires GoOn(a, b) && SeenSo(a, b, seen, counted) && r in byRuntime && r !in seen
    ensures var more := CountedOn(b, byRuntime[r]);
            && SeenSo(a, b, seen + {r}, counted + more)
            && byRuntime[r] in live && |counted + more| == |counted| + live[byRuntime[r]]
  {
    var more := CountedOn(b, byRuntime[r]);
    forall g | g in more ensures b[g].rt == r && g in LiveAtSomePoint(a, b) {
      assert Keeps(byRuntime, b[g]);
    }
    assert counted !! more;
    forall g | g in LiveThroughout(a, b) && a[g].rt == r ensures g in more {
      assert Keeps(byRuntime, b[g]);
    }
  }

  lemma Fewer(a: set<nat>, b: set<nat>)
    requires a <= b
    ensures |a| <= |b|
  {
    assert b == a + (b - a);
  }

  lemma SeenAll(byRuntime: map<nat, nat>, live: map<nat, nat>, a: map<nat, Guard>, b: map<nat, Guard>, nextGuard: nat,
                seen: set<nat>, counted: set<nat>)
    requires GuardsOk(byRuntime, live, b, nextGuard) && GoOn(a, b) && SeenSo(a, b, seen, counted)
        && seen == byRuntime.Keys
    ensures |LiveThroughout(a, b)| <= |counted| <= |LiveAtSomePoint(a, b)|
    ensures a == b ==> |counted| == |LiveGuards(b)|
  {
    forall g | g in LiveThroughout(a, b) ensures g in counted {
      assert Keeps(byRuntime, b[g]);
    }
    Fewer(LiveThroughout(a, b), counted);
    Fewer(counted, LiveAtSomePoint(a, b));
    if a == b {
      assert LiveThroughout(a, b) == LiveGuards(b) == LiveAtSomePoint(a, b);
    }
  }

  /** Each end is of a guard that has ended, and each guard that has ended has one. */
  ghost predicate EndsOk(guards: map<nat, Guard>, ends: seq<(nat, HelperEnd)>) {
    && (forall k :: 0 <= k < |ends| ==> ends[k].0 in guards && HasEnded(guards[ends[k].0]))
    && (forall g :: g in guards && HasEnded(guards[g]) ==> Recordings(ends, g) == 1)
  }

  /** How often `g` recorded an end. */
  function Recordings(ends: seq<(nat, HelperEnd)>, g: nat): nat {
    if ends == [] then 0 else Recordings(ends[..|ends| - 1], g) + (if ends[|ends| - 1].0 == g then 1 else 0)
  }

  lemma {:induction false} NoneRecorded(ends: seq<(nat, HelperEnd)>, g: nat)
    requires forall k :: 0 <= k < |ends| ==> ends[k].0 != g
    ensures Recordings(ends, g) == 0
  {
    if ends != [] {
      NoneRecorded(ends[..|ends| - 1], g);
    }
  }

  /** A guard records its end exactly once, and not before it has ended. */
  lemma RecordsOnce(guards: map<nat, Guard>, ends: seq<(nat, HelperEnd)>, g: nat)
    requires EndsOk(guards, ends)
    ensures Recordings(ends, g) == if g in guards && HasEnded(guards[g]) then 1 else 0
  {
    if !(g in guards && HasEnded(guards[g])) {
      NoneRecorded(ends, g);
    }
  }

  lemma RecordOne(guards: map<nat, Guard>, ends: seq<(nat, HelperEnd)>, g: nat, end: HelperEnd,
                  guards': map<nat, Guard>)
    requires EndsOk(guards, ends) && g in guards && !HasEnded(guards[g])
    requires SameBut(guards, guards', g) && HasEnded(guards'[g])
    ensures EndsOk(guards', ends + [(g, end)])
  {
    var ends' := ends + [(g, end)];
    assert ends'[..|ends'| - 1] == ends;
    NoneRecorded(ends, g);
  }

  lemma NotEndedYet(guards: map<nat, Guard>, ends: seq<(nat, HelperEnd)>, g: nat, guard: Guard)
    requires EndsOk(guards, ends) && (if g in guards then HasEnded(guards[g]) == HasEnded(guard) else !HasEnded(guard))
    ensures EndsOk(guards[g := guard], ends)
  {
  }

  class HelperSlots {
    /** The slot of each runtime, the live count of each slot, and the guards made so far. */
    var byRuntime: map<nat, nat>
    var live: map<nat, nat>
    var guards: map<nat, Guard>
    var nextGuard: nat
    var nextSlot: nat
    /** The ends recorded, in order. */
    var ends: seq<(nat, HelperEnd)>

    /** Runtimes have slots of their own, a guard's slot is its runtime's until the guard lets go of it, each slot
        counts its guards, and every guard that has ended recorded it once. */
    ghost predicate Valid()
      reads this
    {
      && SlotsOk(byRuntime, live, nextSlot) && GuardsOk(byRuntime, live, guards, nextGuard)
      && CountsOk(live, guards) && EndsOk(guards, ends)
    }

    constructor ()
      ensures Valid() && guards == map[] && ends == []
    {
      byRuntime, live, guards, ends, nextGuard, nextSlot := map[], map[], map[], [], 0, 0;
    }

    /** A runtime without a slot gets one, after the slots that no guard holds are dropped: none of those counts a
        live helper. */
    method AddSlot(rt: nat)
      requires Valid() && rt !in byRuntime
      modifies this`byRuntime, this`live, this`nextSlot
      ensures Valid() && rt in byRuntime && byRuntime == Pruned(old(byRuntime), guards)[rt := byRuntime[rt]]
      ensures byRuntime[rt] !in old(live) && live == old(live)[byRuntime[rt] := 0]
      ensures forall r :: r in old(byRuntime) && r !in byRuntime ==> old(live)[old(byRuntime)[r]] == 0
      ensures forall r :: r in byRuntime && r != rt ==> InUse(guards, byRuntime[r])
    {
      PruneKeeps(byRuntime, live, guards, nextGuard);
      byRuntime := Pruned(byRuntime, guards);
      NewSlot(byRuntime, live, guards, nextGuard, nextSlot, rt);
      live, byRuntime, nextSlot := live[nextSlot := 0], byRuntime[rt := nextSlot], nextSlot + 1;
    }

    /** The first half of making a guard, under the lock: a hold on the runtime's slot. */
    method Reserve(rt: nat) returns (g: nat)
      requires Valid()
      modifies this`byRuntime, this`live, this`nextSlot, this`guards, this`nextGuard
      ensures Valid() && g !in old(guards) && rt in byRuntime
          && guards == old(guards)[g := Guard(rt, byRuntime[rt], Reserved)]
      ensures rt in old(byRuntime) ==> byRuntime == old(byRuntime) && live == old(live)
      ensures forall r :: r in old(byRuntime) && r !in byRuntime ==> old(live)[old(byRuntime)[r]] == 0
      ensures rt !in old(byRuntime) ==> forall r :: r in byRuntime ==> InUse(guards, byRuntime[r])
    {
      if rt !in byRuntime {
        AddSlot(rt);
      }
      g := nextGuard;
      CountMoves(guards, guards[g := Guard(rt, byRuntime[rt], Reserved)], g);
      NotEndedYet(guards, ends, g, Guard(rt, byRuntime[rt], Reserved));
      forall r | rt !in old(byRuntime) && r in byRuntime
        ensures InUse(guards[g := Guard(rt, byRuntime[rt], Reserved)], byRuntime[r])
      {
        OneMoreInUse(guards, g, Guard(rt, byRuntime[rt], Reserved), byRuntime[r]);
      }
      guards, nextGuard := guards[g := Guard(rt, byRuntime[rt], Reserved)], nextGuard + 1;
    }

    /** The second half: the slot counts the helper. */
    method Count(g: nat)
      requires Valid() && g in guards && guards[g].stage == Reserved
      modifies this`guards, this`live
      ensures Valid() && guards == Moved(old(guards), g, Counted)
      ensures live == old(live)[guards[g].slot := old(live)[guards[g].slot] + 1]
    {
      hide SlotsOk, GuardsOk, CountsOk, EndsOk;
      GuardMoves(byRuntime, live, guards, nextGuard, g, Counted);
      SlotsStay(byRuntime, live, nextSlot, guards[g].slot, live[guards[g].slot] + 1);
      NotEndedYet(guards, ends, g, guards[g].(stage := Counted));
      guards := Moved(guards, g, Counted);
      live := live[guards[g].slot := live[guards[g].slot] + 1];
    }

    /** An end is recorded unless one was. */
    method Record(g: nat, end: HelperEnd)
      requires Valid() && g in guards && guards[g].stage != Reserved
      modifies this`guards, this`ends
      ensures Valid()
      ensures old(HasEnded(guards[g])) ==> guards == old(guards) && ends == old(ends)
      ensures !old(HasEnded(guards[g])) ==>
                guards == Moved(old(guards), g, Recording) && ends == old(ends) + [(g, end)]
    {
      hide SlotsOk, GuardsOk, CountsOk, EndsOk;
      if !HasEnded(guards[g]) {
        var next := Moved(guards, g, Recording);
        GuardMoves(byRuntime, live, guards, nextGuard, g, Recording);
        assert live[guards[g].slot := live[guards[g].slot]] == live;
        RecordOne(guards, ends, g, end, next);
        guards, ends := next, ends + [(g, end)];
      }
    }

    /** The slot no longer counts a helper whose end is recorded; there is one to take off. */
    method Uncount(g: nat)
      requires Valid() && g in guards && guards[g].stage == Recording
      modifies this`guards, this`live
      ensures Valid() && guards == Moved(old(guards), g, Recorded)
      ensures old(live)[guards[g].slot] > 0 && live == old(live)[guards[g].slot := old(live)[guards[g].slot] - 1]
    {
      hide SlotsOk, GuardsOk, CountsOk, EndsOk;
      GuardMoves(byRuntime, live, guards, nextGuard, g, Recorded);
      SlotsStay(byRuntime, live, nextSlot, guards[g].slot, live[guards[g].slot] - 1);
      NotEndedYet(guards, ends, g, guards[g].(stage := Recorded));
      guards := Moved(guards, g, Recorded);
      live := live[guards[g].slot := live[guards[g].slot] - 1];
    }

    /** The guard lets go of its slot. */
    method Release(g: nat)
      requires Valid() && g in guards && guards[g].stage == Recorded
      modifies this`guards
      ensures Valid() && guards == Moved(old(guards), g, Dropped)
    {
      hide SlotsOk, GuardsOk, CountsOk, EndsOk;
      GuardMoves(byRuntime, live, guards, nextGuard, g, Dropped);
      assert live[guards[g].slot := live[guards[g].slot]] == live;
      NotEndedYet(guards, ends, g, guards[g].(stage := Dropped));
      guards := Moved(guards, g, Dropped);
    }

    /** The whole of recording an end, for a helper that has none recorded. */
    method RecordEnd(g: nat, end: HelperEnd)
      requires Valid() && g in guards && guards[g].stage == Counted
      modifies this`guards, this`live, this`ends
      ensures Valid() && guards == Moved(old(guards), g, Recorded) && ends == old(ends) + [(g, end)]
    {
      Record(g, end);
      Uncount(g);
      MovedTwice(old(guards), g, Recording, Recorded);
    }

    /** A guard is dropped: a helper with no end recorded was cancelled. */
    method DropGuard(g: nat)
      requires Valid() && g in guards && (guards[g].stage == Counted || guards[g].stage == Recorded)
      modifies this`guards, this`live, this`ends
      ensures Valid() && guards == Moved(old(guards), g, Dropped)
      ensures ends == if old(guards[g].stage) == Counted then old(ends) + [(g, Cancelled(0))] else old(ends)
    {
      if guards[g].stage == Counted {
        RecordEnd(g, Cancelled(0));
        MovedTwice(old(guards), g, Recorded, Dropped);
      }
      Release(g);
    }

    /** A helper ends as `end` and its guard goes with it: that end alone is recorded. */
    method Close(g: nat, end: HelperEnd)
      requires Valid() && g in guards && guards[g].stage == Counted
      modifies this`guards, this`live, this`ends
      ensures Valid() && guards == Moved(old(guards), g, Dropped) && ends == old(ends) + [(g, end)]
    {
      RecordEnd(g, end);
      DropGuard(g);
      MovedTwice(old(guards), g, Recorded, Dropped);
    }

    /** Other threads go on with the guards they have; none is made, since that takes the lock. */
    method Interfere()
      requires Valid()
      modifies this`guards, this`live, this`ends
      ensures Valid() && GoOn(old(guards), guards)
    {
      hide SlotsOk, GuardsOk, CountsOk, EndsOk, GoOn;
      StaysSo(guards);
      var steps: int := *;
      while steps > 0
        invariant Valid() && GoOn(old(guards), guards)
        decreases steps
      {
        var g: nat := *;
        var end: HelperEnd := *;
        if g in guards {
          ghost var was := guards;
          StaysSo(was);
          match guards[g].stage {
            case Reserved =>
              Count(g);
              OneGoesOn(was, g, Counted);
            case Counted =>
              Record(g, end);
              OneGoesOn(was, g, Recording);
            case Recording =>
              Uncount(g);
              OneGoesOn(was, g, Recorded);
            case Recorded =>
              Release(g);
              OneGoesOn(was, g, Dropped);
            case Dropped =>
          }
          GoOnTrans(old(guards), was, guards);
        }
        steps := steps - 1;
      }
    }

    /** The counts of the slots, read one after another under the lock while helpers start and end: at least the
        helpers live from first to last, at most those live at some point; and exactly the helpers started and not yet
        ended when nothing changes meanwhile. */
    method Live() returns (sum: nat)
      requires Valid()
      modifies this`guards, this`live, this`ends
      ensures Valid() && GoOn(old(guards), guards)
      ensures |LiveThroughout(old(guards), guards)| <= sum <= |LiveAtSomePoint(old(guards), guards)|
      ensures guards == old(guards) ==> sum == |LiveGuards(guards)|
    {
      hide SlotsOk, GuardsOk, CountsOk, EndsOk, GoOn, SeenSo, LiveThroughout, LiveAtSomePoint, CountedOn;
      StaysSo(guards);
      NoneSeen(guards);
      sum := 0;
      ghost var counted: set<nat> := {};
      var left, seen := byRuntime.Keys, {};
      while left != {}
        invariant Valid() && GoOn(old(guards), guards)
        invariant left !! seen && left + seen == byRuntime.Keys && sum == |counted|
        invariant SeenSo(old(guards), guards, seen, counted)
        decreases left
      {
        var r :| r in left;
        ghost var was := guards;
        Interfere();
        GoOnTrans(old(guards), was, guards);
        SeenStays(old(guards), was, guards, seen, counted);
        SeenMore(byRuntime, live, nextSlot, old(guards), guards, nextGuard, seen, counted, r);
        counted := counted + CountedOn(guards, byRuntime[r]);
        sum, left, seen := sum + live[byRuntime[r]], left - {r}, seen + {r};
      }
      SeenAll(byRuntime, live, old(guards), guards, nextGuard, seen, counted);
    }
  }
}
