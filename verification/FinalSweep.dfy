/** The final sweep of a shutdown, over whatever is registered once no root is left, and the whole walk. */
module FinalSweep {
  import opened Base
  import Gate
  import opened Lane
  import opened Verdict
  import opened World
  import opened Walk
  import opened Force
  import opened Shutdown
  import opened Passes

  // ----- The waits

  /** What a wait on `serial` that came out as `ended` means: the leftover ended, or the system's deadline has passed;
      a wait that fails says nothing. */
  predicate WaitOk(e: Env, own: nat, bad: set<nat>, serial: nat, ended: bool) {
    if ended then serial !in bad && Terminal(PlaneOf(e, serial))
    else serial in bad || Gate.Lower(Held(e), own) <= e.now
  }

  lemma WaitStays(e: Env, e': Env, own: nat, bad: set<nat>, serial: nat, ended: bool)
    requires Later(e, e') && WaitOk(e, own, bad, serial, ended)
    ensures WaitOk(e', own, bad, serial, ended)
  {
    if ended {
      PlaneStays(e, e', serial);
    }
  }

  /** A wait task is joined. The waits run at once, so it may have read its plane, at its deadline, before this. */
  method JoinWait(w: World, serial: nat, own: nat, bad: set<nat>) returns (ended: bool)
    modifies w`env
    ensures Onward(old(w.env), w.env) && w.env.now <= Max(old(w.env.now), own)
    ensures WaitOk(w.env, own, bad, serial, ended)
  {
    if serial in bad {
      w.Elapse(Max(0, own - w.env.now));
      ended := false;
    } else {
      var readBefore: bool := *;
      ended := w.WaitEndByTheSystemDeadline(serial, own);
      if readBefore && Gate.Lower(Held(w.env), own) <= w.env.now {
        ended := false;
      }
    }
  }

  predicate WaitsOk(e: Env, own: nat, bad: set<nat>, rs: seq<Root>, ended: seq<bool>, left: set<nat>)
    requires |ended| == |rs|
  {
    forall k :: 0 <= k < |rs| && k !in left ==> WaitOk(e, own, bad, rs[k].serial, ended[k])
  }

  lemma WaitsStay(e: Env, e': Env, own: nat, bad: set<nat>, rs: seq<Root>, ended: seq<bool>, left: set<nat>)
    requires |ended| == |rs| && Later(e, e') && WaitsOk(e, own, bad, rs, ended, left)
    ensures WaitsOk(e', own, bad, rs, ended, left)
  {
    forall k | 0 <= k < |rs| && k !in left ensures WaitOk(e', own, bad, rs[k].serial, ended[k]) {
      WaitStays(e, e', own, bad, rs[k].serial, ended[k]);
    }
  }

  function Below(n: nat): (s: set<nat>)
    ensures forall k: int :: k in s <==> 0 <= k < n
  {
    if n == 0 then {} else Below(n - 1) + {n - 1}
  }

  /** The waits on all leftovers at once, joined as they end: none goes past the deadline, and every leftover not
      seen to end is one whose wait fails, or was still to end when the system's deadline passed. */
  method JoinWaits(w: World, rs: seq<Root>, own: nat, bad: set<nat>) returns (ended: seq<bool>)
    modifies w`env
    ensures Onward(old(w.env), w.env) && w.env.now <= Max(old(w.env.now), own)
    ensures |ended| == |rs| && WaitsOk(w.env, own, bad, rs, ended, {})
  {
    ended := seq(|rs|, _ => false);
    var left := Below(|rs|);
    while left != {}
      invariant Onward(old(w.env), w.env) && w.env.now <= Max(old(w.env.now), own)
      invariant |ended| == |rs| && (forall k :: k in left ==> 0 <= k < |rs|)
          && WaitsOk(w.env, own, bad, rs, ended, left)
      decreases left
    {
      var k :| k in left;
      ghost var e := w.env;
      var end := JoinWait(w, rs[k].serial, own, bad);
      LaterTrans(old(w.env), e, w.env);
      WaitsStay(e, w.env, own, bad, rs, ended, left);
      ended, left := ended[k := end], left - {k};
    }
  }

  // ----- The lines

  /** The leftovers that were, or were not, seen to end, in their order. */
  function Picked(rs: seq<Root>, ended: seq<bool>, seen: bool): seq<Root>
    requires |ended| == |rs|
  {
    if rs == [] then []
    else
      var n := |rs| - 1;
      Picked(rs[..n], ended[..n], seen) + (if ended[n] == seen then [rs[n]] else [])
  }

  lemma {:induction false} PickedAll(rs: seq<Root>, ended: seq<bool>)
    requires |ended| == |rs|
    ensures multiset(Picked(rs, ended, true)) + multiset(Picked(rs, ended, false)) == multiset(rs)
  {
    if rs != [] {
      var n := |rs| - 1;
      PickedAll(rs[..n], ended[..n]);
      assert rs == rs[..n] + [rs[n]];
    }
  }

  lemma {:induction false} PickedFrom(rs: seq<Root>, ended: seq<bool>, seen: bool, r: Root) returns (k: nat)
    requires |ended| == |rs| && r in Picked(rs, ended, seen)
    ensures k < |rs| && rs[k] == r && ended[k] == seen
  {
    var n := |rs| - 1;
    if ended[n] == seen && rs[n] == r {
      k := n;
    } else {
      k := PickedFrom(rs[..n], ended[..n], seen, r);
    }
  }

  lemma {:induction false} PickedHas(rs: seq<Root>, ended: seq<bool>, k: nat)
    requires |ended| == |rs| && k < |rs|
    ensures rs[k] in Picked(rs, ended, ended[k])
  {
    var n := |rs| - 1;
    if k < n {
      PickedHas(rs[..n], ended[..n], k);
    }
  }

  /** Since `log` only lines were made, of `rs`. */
  predicate OnlyLines(log: seq<Deed>, log': seq<Deed>, rs: seq<Root>) {
    About(log, log', RootSerials(rs)) && forall k :: |log| <= k < |log'| ==> log'[k].Lined?
  }

  /** What the loop over the waited leftovers has at the `n`-th. */
  ghost predicate Sorted(e: Env, log: seq<Deed>, terms: Terms, own: nat, rs: seq<Root>, ended: seq<bool>, n: nat,
                         swept: seq<Report>, stragglers: seq<Target>)
    requires |ended| == |rs| && n <= |rs|
  {
    && LineRoots(swept) == Picked(rs[..n], ended[..n], true) && Roots(stragglers) == Picked(rs[..n], ended[..n], false)
    && (forall k :: 0 <= k < |stragglers| ==> !stragglers[k].killRaised)
    && LinesOk(e, log, terms, Some(own), swept)
  }

  lemma SortOne(e: Env, log: seq<Deed>, terms: Terms, own: nat, rs: seq<Root>, ended: seq<bool>, n: nat,
                swept: seq<Report>, stragglers: seq<Target>, outcome: Outcome)
    requires |ended| == |rs| && n < |rs| && Sorted(e, log, terms, own, rs, ended, n, swept, stragglers)
    requires ended[n] ==> HonestLeftover(e, log, terms, own, rs[n], outcome)
    ensures if ended[n] then Sorted(e, log, terms, own, rs, ended, n + 1, swept + [Line(rs[n], outcome)], stragglers)
            else Sorted(e, log, terms, own, rs, ended, n + 1, swept, stragglers + [Target(rs[n], false)])
  {
    assert rs[..n + 1][..n] == rs[..n] && ended[..n + 1][..n] == ended[..n];
    if ended[n] {
      AppendLines(e, log, terms, Some(own), swept, [Line(rs[n], outcome)]);
      assert LineRoots(swept + [Line(rs[n], outcome)]) == LineRoots(swept) + [rs[n]];
    } else {
      assert Roots(stragglers + [Target(rs[n], false)]) == Roots(stragglers) + [rs[n]];
    }
  }

  lemma SortedStays(e: Env, log: seq<Deed>, e': Env, log': seq<Deed>, terms: Terms, own: nat, rs: seq<Root>,
                    ended: seq<bool>, n: nat, swept: seq<Report>, stragglers: seq<Target>)
    requires |ended| == |rs| && n <= |rs| && Sorted(e, log, terms, own, rs, ended, n, swept, stragglers)
    requires Later(e, e') && log <= log' && Accepted(log) == Accepted(log')
    ensures Sorted(e', log', terms, own, rs, ended, n, swept, stragglers)
  {
    LinesStay(e, log, e', log', terms, Some(own), swept);
  }

  /** A leftover seen to end has its line made, by the deadline held at that moment. */
  method LineUp(w: World, terms: Terms, own: nat, root: Root) returns (outcome: Outcome)
    requires Terminal(PlaneOf(w.env, root.serial)) && root.serial !in Accepted(w.log)
    modifies w
    ensures w.Ran() && w.env.now == old(w.env.now) && Accepted(w.log) == Accepted(old(w.log))
    ensures OnlyLines(old(w.log), w.log, [root])
    ensures outcome != Unresponsive && HonestLeftover(w.env, w.log, terms, own, root, outcome)
  {
    w.Elapse(0);
    ghost var e := w.env;
    Waiting(old(w.env), w.log, e);
    PlaneStays(old(w.env), e, root.serial);
    outcome := LeftoverOutcome(PlaneOf(w.env, root.serial), false, Gate.Lower(Held(w.env), own));
    w.MakeLine(root.serial);
    TrailTrans(old(w.env), old(w.log), e, old(w.log), w.env, w.log);
    assert LinedAt(w.log, |old(w.log)|, own, root, outcome);
    assert RootSerials([root])[0] == root.serial;
  }

  lemma OnlyLinesMore(log: seq<Deed>, log1: seq<Deed>, log2: seq<Deed>, rs: seq<Root>, n: nat)
    requires n < |rs| && OnlyLines(log, log1, rs) && OnlyLines(log1, log2, [rs[n]])
    ensures OnlyLines(log, log2, rs)
  {
    forall k | |log| <= k < |log2| ensures log2[k].Lined? && log2[k].i in RootSerials(rs) {
      if k < |log1| {
        assert log2[k] == log1[k];
      } else {
        assert log2[k].i == RootSerials([rs[n]])[0] == RootSerials(rs)[n];
      }
    }
  }

  /** Those seen to end have their lines made, in their order; the others are stragglers, in theirs. */
  method Classify(w: World, terms: Terms, rs: seq<Root>, ended: seq<bool>, own: nat)
    returns (swept: seq<Report>, stragglers: seq<Target>)
    requires |ended| == |rs| && WaitsOk(w.env, own, terms.badWaits, rs, ended, {})
    requires forall k :: 0 <= k < |rs| ==> rs[k].serial !in Accepted(w.log)
    modifies w
    ensures w.Ran() && w.env.now == old(w.env.now) && Accepted(w.log) == Accepted(old(w.log))
    ensures OnlyLines(old(w.log), w.log, rs) && Sorted(w.env, w.log, terms, own, rs, ended, |rs|, swept, stragglers)
  {
    swept, stragglers := [], [];
    LaterSelf(w.env);
    for n := 0 to |rs|
      invariant w.Ran() && w.env.now == old(w.env.now) && Accepted(w.log) == Accepted(old(w.log))
      invariant WaitsOk(w.env, own, terms.badWaits, rs, ended, {}) && OnlyLines(old(w.log), w.log, rs)
      invariant Sorted(w.env, w.log, terms, own, rs, ended, n, swept, stragglers)
    {
      if ended[n] {
        ghost var e, log := w.env, w.log;
        assert WaitOk(w.env, own, terms.badWaits, rs[n].serial, ended[n]);
        var outcome := LineUp(w, terms, own, rs[n]);
        TrailTrans(old(w.env), old(w.log), e, log, w.env, w.log);
        WaitsStay(e, w.env, own, terms.badWaits, rs, ended, {});
        OnlyLinesMore(old(w.log), log, w.log, rs, n);
        SortedStays(e, log, w.env, w.log, terms, own, rs, ended, n, swept, stragglers);
        SortOne(w.env, w.log, terms, own, rs, ended, n, swept, stragglers, outcome);
        swept := swept + [Line(rs[n], outcome)];
      } else {
        SortOne(w.env, w.log, terms, own, rs, ended, n, swept, stragglers, Unresponsive);
        stragglers := stragglers + [Target(rs[n], false)];
      }
    }
  }

  // ----- The sweep

  lemma {:induction false} LongestAmong(a: seq<Root>, b: seq<Root>)
    requires forall k :: 0 <= k < |a| ==> a[k] in b
    ensures LongestForce(a) <= LongestForce(b)
  {
    if a != [] {
      LongestAmong(a[1..], b);
      var j :| 0 <= j < |b| && b[j] == a[0];
      LongestCovers(b, j);
    }
  }

  /** Two parts of a sequence of distinct serials. */
  lemma ApartHalves(a: seq<Root>, b: seq<Root>)
    requires Distinct(RootSerials(a + b))
    ensures Distinct(RootSerials(b)) && forall k :: 0 <= k < |a| ==> a[k].serial !in RootSerials(b)
  {
    var both := RootSerials(a + b);
    assert forall k :: 0 <= k < |b| ==> both[|a| + k] == RootSerials(b)[k];
    assert forall k :: 0 <= k < |a| ==> both[k] == a[k].serial;
    forall i, j | 0 <= i < j < |b| ensures RootSerials(b)[i] != RootSerials(b)[j] {
      assert both[|a| + i] != both[|a| + j];
    }
    forall k, j | 0 <= k < |a| && 0 <= j < |b| ensures a[k].serial != RootSerials(b)[j] {
      assert both[k] != both[|a| + j];
    }
  }

  /** The stragglers and the leftovers classified already are distinct incarnations of `rs`. */
  lemma PickedApart(rs: seq<Root>, ended: seq<bool>)
    requires |ended| == |rs| && Distinct(RootSerials(rs))
    ensures var a, b := Picked(rs, ended, true), Picked(rs, ended, false);
            && Distinct(RootSerials(b)) && (forall k :: 0 <= k < |b| ==> b[k] in rs)
            && (forall k :: 0 <= k < |a| ==> a[k].serial !in RootSerials(b))
            && (forall i :: i in RootSerials(b) ==> i in RootSerials(rs))
  {
    var a, b := Picked(rs, ended, true), Picked(rs, ended, false);
    PickedAll(rs, ended);
    assert multiset(a + b) == multiset(rs);
    SameRoots(rs, a + b);
    ApartHalves(a, b);
    forall k | 0 <= k < |b| ensures b[k] in rs {
      assert b[k] in multiset(b);
      assert b[k] in multiset(rs);
    }
    SerialsAmong(b, rs);
  }

  /** Lines about none of `serials` stand when only those are dealt with. */
  lemma DoneStands(e: Env, log: seq<Deed>, e': Env, log': seq<Deed>, terms: Terms, own: nat, done: seq<Report>,
                   serials: seq<nat>)
    requires LinesOk(e, log, terms, Some(own), done) && Later(e, e') && About(log, log', serials)
    requires forall k :: 0 <= k < |done| ==> LineRoots(done)[k].serial !in serials
    ensures LinesOk(e', log', terms, Some(own), done)
  {
    forall k | 0 <= k < |done| ensures done[k].root.serial in Accepted(log) <==> done[k].root.serial in Accepted(log') {
      assert LineRoots(done)[k] == done[k].root;
      OthersUntouched(log, log', serials, done[k].root.serial);
    }
    LinesStay(e, log, e', log', terms, Some(own), done);
  }

  /** The force of the stragglers: every leftover has its line then, and a straggler still registered holds a `Kill` or
      refuses it. */
  method ForceStragglers(w: World, terms: Terms, own: nat, done: seq<Report>, stragglers: seq<Target>)
    returns (swept: seq<Report>)
    requires Distinct(RootSerials(Roots(stragglers))) && forall k :: 0 <= k < |stragglers| ==>
        Marked(stragglers[k], w.log)
    requires LinesOk(w.env, w.log, terms, Some(own), done)
    requires forall k :: 0 <= k < |done| ==> LineRoots(done)[k].serial !in RootSerials(Roots(stragglers))
    modifies w
    ensures w.Ran() && w.env.now <= old(w.env.now) + LongestForce(Roots(stragglers))
    ensures multiset(LineRoots(swept)) == multiset(LineRoots(done)) + multiset(Roots(stragglers))
    ensures LinesOk(w.env, w.log, terms, Some(own), swept)
    ensures About(old(w.log), w.log, RootSerials(Roots(stragglers)))
    ensures KilledAt(w.log, |old(w.log)|, Roots(stragglers), old(w.env.now)) && AllKillHeard(w.env, Roots(stragglers))
    ensures AllShown(w.env, old(w.log), w.log)
  {
    hide Later, Between, AllShown, AllKillHeard;
    var forced := ConcurrentForceSweep(w, terms, stragglers, Some(own));
    DoneStands(old(w.env), old(w.log), w.env, w.log, terms, own, done, RootSerials(Roots(stragglers)));
    AppendLines(w.env, w.log, terms, Some(own), done, forced);
    assert LineRoots(done + forced) == LineRoots(done) + LineRoots(forced);
    swept := done + forced;
  }

  /** The leftovers sorted out: between them the lines and the stragglers are all of `rs`, and no straggler has a
      line. */
  lemma SortedOut(e: Env, log: seq<Deed>, terms: Terms, own: nat, rs: seq<Root>, ended: seq<bool>, done: seq<Report>,
                  stragglers: seq<Target>)
    requires |ended| == |rs| && Distinct(RootSerials(rs))
        && Sorted(e, log, terms, own, rs, ended, |rs|, done, stragglers)
    requires forall k :: 0 <= k < |rs| ==> rs[k].serial !in Accepted(log)
    ensures multiset(LineRoots(done)) + multiset(Roots(stragglers)) == multiset(rs)
    ensures Roots(stragglers) == Picked(rs, ended, false) && Distinct(RootSerials(Roots(stragglers)))
    ensures forall k :: 0 <= k < |stragglers| ==> Marked(stragglers[k], log)
    ensures forall k :: 0 <= k < |done| ==> LineRoots(done)[k].serial !in RootSerials(Roots(stragglers))
    ensures LongestForce(Roots(stragglers)) <= LongestForce(rs)
    ensures forall i :: i in RootSerials(Roots(stragglers)) ==> i in RootSerials(rs)
  {
    assert rs[..|rs|] == rs && ended[..|rs|] == ended;
    PickedAll(rs, ended);
    PickedApart(rs, ended);
    LongestAmong(Roots(stragglers), rs);
    forall k | 0 <= k < |stragglers| ensures Marked(stragglers[k], log) {
      assert Roots(stragglers)[k] in rs;
    }
  }

  /** What the sweep took on: the incarnations registered at `at` and not taken on before, with its deadline. */
  datatype Listing = Listing(at: Env, own: nat, rs: seq<Root>)

  ghost predicate Listed(l: Listing, taken: set<nat>) {
    RegistryOk(l.at.registry) && Descending(l.rs) && Snapshots(l.at, Wanted(l.at, false, taken), l.rs)
  }

  /** Every `Kill` tried since came when the system's deadline had passed, or to a leftover whose wait fails. */
  predicate KilledLate(log: seq<Deed>, log': seq<Deed>, terms: Terms, own: nat) {
    forall k :: |log| <= k < |log'| && log'[k].Killing? ==>
                  log'[k].i in terms.badWaits || Gate.Lower(HeldAt(log'[k].at), own) <= log'[k].at.now
  }

  /** The force comes after the waits: whoever it tries a `Kill` on was not seen to end. */
  lemma ForcedLate(e: Env, log: seq<Deed>, e': Env, log': seq<Deed>, terms: Terms, own: nat, rs: seq<Root>,
                   ended: seq<bool>)
    requires |ended| == |rs| && WaitsOk(e, own, terms.badWaits, rs, ended, {})
    requires Trail(e, log, e', log') && About(log, log', RootSerials(Picked(rs, ended, false)))
    ensures KilledLate(log, log', terms, own)
  {
    var b := Picked(rs, ended, false);
    forall k | |log| <= k < |log'| && log'[k].Killing?
      ensures log'[k].i in terms.badWaits || Gate.Lower(HeldAt(log'[k].at), own) <= log'[k].at.now
    {
      var j :| 0 <= j < |b| && RootSerials(b)[j] == log'[k].i;
      var m := PickedFrom(rs, ended, false, b[j]);
      assert WaitOk(e, own, terms.badWaits, rs[m].serial, ended[m]);
      assert Between(e, log'[k], e');
    }
  }

  /** Every `Kill` tried since came when the deadline of the call itself had passed, or one that another call had folded
      by then, or to a leftover whose wait fails. */
  predicate KilledInTime(log: seq<Deed>, log': seq<Deed>, terms: Terms) {
    forall k :: |log| <= k < |log'| && log'[k].Killing? ==> NotEarly(log'[k], terms)
  }

  predicate NotEarly(ev: Deed, terms: Terms) {
    || ev.i in terms.badWaits || terms.deadline <= ev.at.now
    || (ev.at.others.Some? && ev.at.others.value <= ev.at.now)
  }

  /** What the sweep goes by is its call's own deadline, raised past the clock it read, or one another call had folded:
      so the `Kill`s come in time. */
  lemma LateIsInTime(e: Env, log: seq<Deed>, e': Env, log': seq<Deed>, terms: Terms, own: nat, wanted: nat)
    requires Trail(e, log, e', log') && KilledLate(log, log', terms, own) && terms.deadline <= wanted
    requires e.mine == e'.mine == Some(wanted) && (own == wanted || (e.others.Some? && e.others.value <= own))
    ensures KilledInTime(log, log', terms)
  {
    forall k | |log| <= k < |log'| && log'[k].Killing? ensures NotEarly(log'[k], terms) {
      assert Between(e, log'[k], e');
      hide LaneLater, PlaneLater;
    }
  }

  lemma LinesNotLate(log: seq<Deed>, log1: seq<Deed>, log2: seq<Deed>, terms: Terms, own: nat, rs: seq<Root>)
    requires OnlyLines(log, log1, rs) && log1 <= log2 && KilledLate(log1, log2, terms, own)
    ensures KilledLate(log, log2, terms, own)
  {
    assert forall k :: |log| <= k < |log1| ==> log2[k] == log1[k];
  }

  /** Every one of `rs` still registered and running holds a `Kill` or refuses it. */
  predicate LeftKilled(e: Env, rs: seq<Root>) {
    forall k :: 0 <= k < |rs| && Registers(e, rs[k].id, rs[k].serial) && !Terminal(PlaneOf(e, rs[k].serial)) ==>
                  KillHeard(LaneOf(e, rs[k].serial))
  }

  lemma SweptOrKilled(e: Env, own: nat, bad: set<nat>, rs: seq<Root>, ended: seq<bool>)
    requires |ended| == |rs| && WaitsOk(e, own, bad, rs, ended, {})
    requires AllKillHeard(e, Picked(rs, ended, false))
    ensures LeftKilled(e, rs)
  {
    var b := Picked(rs, ended, false);
    forall k | 0 <= k < |rs| && Registers(e, rs[k].id, rs[k].serial) && !Terminal(PlaneOf(e, rs[k].serial))
      ensures KillHeard(LaneOf(e, rs[k].serial))
    {
      assert WaitOk(e, own, bad, rs[k].serial, ended[k]);
      PickedHas(rs, ended, k);
      var j :| 0 <= j < |b| && b[j] == rs[k];
    }
  }

  /** Waits, lines and force, once the leftovers are listed. */
  method SweepListed(w: World, terms: Terms, rs: seq<Root>, own: nat) returns (swept: seq<Report>)
    requires Distinct(RootSerials(rs)) && AllFresh(w.log, rs, 0)
    modifies w
    ensures w.Ran() && w.env.now <= Max(old(w.env.now), own) + LongestForce(rs)
    ensures multiset(LineRoots(swept)) == multiset(rs) && LinesOk(w.env, w.log, terms, Some(own), swept)
    ensures About(old(w.log), w.log, RootSerials(rs)) && KilledLate(old(w.log), w.log, terms, own)
    ensures AllShown(w.env, old(w.log), w.log) && LeftKilled(w.env, rs)
  {
    hide Later, Between, AllShown, KilledLate, WaitsOk;
    LaterSelf(w.env);
    forall k | 0 <= k < |rs| ensures rs[k].serial !in Accepted(w.log) {
      FreshNotAccepted(w.log, rs[k].serial);
    }
    var ended := JoinWaits(w, rs, own, terms.badWaits);
    ghost var e1 := w.env;
    Waiting(old(w.env), w.log, e1);
    var done, stragglers := Classify(w, terms, rs, ended, own);
    ghost var e2, log2 := w.env, w.log;
    TrailTrans(old(w.env), old(w.log), e1, old(w.log), e2, log2);
    WaitsStay(e1, e2, own, terms.badWaits, rs, ended, {});
    SortedOut(e2, log2, terms, own, rs, ended, done, stragglers);
    swept := done;
    if stragglers != [] {
      swept := ForceStragglers(w, terms, own, done, stragglers);
      TrailTrans(old(w.env), old(w.log), e2, log2, w.env, w.log);
    } else {
      LaterSelf(e2);
    }
    WaitsStay(e2, w.env, own, terms.badWaits, rs, ended, {});
    SweptOrKilled(w.env, own, terms.badWaits, rs, ended);
    TrailShown(old(w.env), old(w.log), w.env, w.log);
    ForcedLate(e2, log2, w.env, w.log, terms, own, rs, ended);
    LinesNotLate(old(w.log), log2, w.log, terms, own, rs);
    AboutBoth(old(w.log), log2, w.log, rs, Picked(rs, ended, false));
  }

  lemma AboutBoth(log: seq<Deed>, log1: seq<Deed>, log2: seq<Deed>, rs: seq<Root>, some: seq<Root>)
    requires About(log, log1, RootSerials(rs)) && About(log1, log2, RootSerials(some))
    requires forall i :: i in RootSerials(some) ==> i in RootSerials(rs)
    ensures About(log, log2, RootSerials(rs))
  {
    forall k | |log| <= k < |log2| ensures log2[k].i in RootSerials(rs) {
      assert k < |log1| ==> log2[k] == log1[k];
    }
  }

  /** The sweep folded `wanted` at `fold` and goes by it, or by what another call had folded earlier. */
  predicate SweepsBy(fold: Env, l: Listing, wanted: nat) {
    && fold.mine.None? && l.at.mine == Some(wanted) && l.own <= wanted && Gate.Falls(Held(fold), Some(l.own))
    && (l.own == wanted || fold.others == Some(l.own)) && Gate.Falls(Some(l.own), Held(l.at))
  }

  /** The sweep begins: it folds its deadline into the system's, and lists whatever is registered and not taken on. */
  method FoldAndList(w: World, terms: Terms, taken: set<nat>)
    returns (own: nat, rs: seq<Root>, ghost l: Listing, ghost fold: Env)
    requires RegistryOk(w.env.registry) && w.env.mine.None?
    modifies w`env
    ensures l == Listing(w.env, own, rs) && Listed(l, taken) && Later(old(w.env), w.env)
    ensures Onward(old(w.env), fold) && Later(fold, w.env) && fold.now <= old(w.env.now) + terms.lag
    ensures w.env.now <= old(w.env.now) + terms.lag && SweepsBy(fold, l, Max(terms.deadline, old(w.env.now) + 1))
    ensures fold.others == Some(own) ==> w.env.others.Some? && w.env.others.value <= own
  {
    own, fold := w.FoldSweepDeadline(terms.deadline, terms.lag);
    ghost var e := w.env;
    w.Elapse(0);
    LaterTrans(old(w.env), e, w.env);
    LaterTrans(fold, e, w.env);
    RegistryStays(old(w.env), w.env);
    rs := Snapshot(w.env, false, taken);
    l := Listing(w.env, own, rs);
    HeldFalls(e, w.env);
  }

  /** The final sweep. It lists whatever is registered and not taken on, waits for all of it up to the system's
      deadline, and forces the rest. Each leftover is reported once, honestly; no `Kill` is tried on any before the
      deadline unless its wait fails, and the deadline is the call's own unless another call folded an earlier one; a
      leftover still registered and running at the end holds a `Kill` or refuses it; and the sweep ends by its deadline
      and the longest bound of a force. `fold` is the moment of its fold. */
  method SweepLeftovers(w: World, terms: Terms, taken: set<nat>)
    returns (swept: seq<Report>, ghost l: Listing, ghost fold: Env)
    requires RegistryOk(w.env.registry) && OnlyTaken(w.log, taken) && w.env.mine.None?
    modifies w
    ensures w.RanAndFolded() && Later(old(w.env), l.at) && Later(l.at, w.env) && Listed(l, taken)
    ensures Onward(old(w.env), fold) && Later(fold, l.at) && fold.now <= old(w.env.now) + terms.lag
    ensures SweepsBy(fold, l, Max(terms.deadline, old(w.env.now) + 1))
    ensures w.env.mine == l.at.mine && KilledInTime(old(w.log), w.log, terms)
    ensures multiset(LineRoots(swept)) == multiset(l.rs) && LinesOk(w.env, w.log, terms, Some(l.own), swept)
    ensures About(old(w.log), w.log, RootSerials(l.rs)) && KilledLate(old(w.log), w.log, terms, l.own)
    ensures w.env.now <= Max(terms.deadline, old(w.env.now) + 1 + terms.lag) + LongestForce(l.rs)
    ensures AllShown(w.env, old(w.log), w.log) && LeftKilled(w.env, l.rs)
  {
    hide Later, Between, AllShown, LeftKilled, KilledLate, KilledInTime, LinesOk, Snapshots;
    var own, rs;
    own, rs, l, fold := FoldAndList(w, terms, taken);
    ghost var e := w.env;
    Waiting(old(w.env), w.log, e);
    DescendingDistinct(rs);
    FreshSnapshots(e, taken, false, rs);
    NotTakenFresh(w.log, taken, rs);
    swept := SweepListed(w, terms, rs, own);
    LateIsInTime(e, old(w.log), w.env, w.log, terms, own, Max(terms.deadline, old(w.env.now) + 1));
    TrailTrans(old(w.env), old(w.log), e, old(w.log), w.env, w.log);
    TrailShown(old(w.env), old(w.log), w.env, w.log);
  }

  // ----- The walk

  /** Every incarnation reported, among the roots or among the leftovers, is reported once. */
  lemma ApartLines(outcomes: seq<Report>, swept: seq<Report>, taken: set<nat>, l: Listing)
    requires Tally(outcomes, taken) && Listed(l, taken) && multiset(LineRoots(swept)) == multiset(l.rs)
    ensures Distinct(LineSerials(outcomes) + LineSerials(swept))
    ensures forall i :: i in LineSerials(swept) <==> i in RootSerials(l.rs)
  {
    DescendingDistinct(l.rs);
    SameRoots(l.rs, LineRoots(swept));
    var a, b := LineSerials(outcomes), LineSerials(swept);
    forall i, j | 0 <= i < |a| && 0 <= j < |b| ensures a[i] != b[j] {
      assert a[i] in taken;
      SweptNotTaken(l, taken, a[i]);
    }
  }

  lemma SweptNotTaken(l: Listing, taken: set<nat>, i: nat)
    requires Listed(l, taken) && i in taken
    ensures i !in RootSerials(l.rs)
  {
    forall k | 0 <= k < |l.rs| ensures RootSerials(l.rs)[k] != i {
      assert l.rs[k].id in Wanted(l.at, false, taken);
    }
  }

  /** Whatever the sweep found registered is in the report. */
  predicate Complete(e: Env, outcomes: seq<Report>, swept: seq<Report>) {
    forall k :: k in e.registry ==>
                  e.registry[k].serial in LineSerials(outcomes) || e.registry[k].serial in LineSerials(swept)
  }

  /** The sweep takes on no root. */
  predicate NoRoots(l: Listing) {
    forall k :: 0 <= k < |l.rs| ==> l.rs[k].id in l.at.registry && !l.at.registry[l.rs[k].id].isRoot
  }

  lemma CompleteReport(outcomes: seq<Report>, swept: seq<Report>, taken: set<nat>, l: Listing)
    requires Tally(outcomes, taken) && Listed(l, taken) && NoMoreRoots(l.at, taken)
    requires forall i :: i in LineSerials(swept) <==> i in RootSerials(l.rs)
    ensures Complete(l.at, outcomes, swept) && NoRoots(l)
  {
    forall k | k in l.at.registry && l.at.registry[k].serial !in taken
      ensures l.at.registry[k].serial in LineSerials(swept)
    {
      assert k in Wanted(l.at, false, taken);
    }
    forall k | 0 <= k < |l.rs| ensures !l.at.registry[l.rs[k].id].isRoot {
      assert l.rs[k].id in Wanted(l.at, false, taken) && l.rs[k].id !in Wanted(l.at, true, taken);
    }
  }

  /** The roots' lines stand through the sweep. */
  lemma RootsStand(e: Env, log: seq<Deed>, e': Env, log': seq<Deed>, terms: Terms, outcomes: seq<Report>,
                   taken: set<nat>, l: Listing)
    requires RootsOk(e, log, terms, outcomes, taken) && Listed(l, taken)
    requires Later(e, e') && About(log, log', RootSerials(l.rs))
    ensures LinesOk(e', log', terms, None, outcomes) && AllReached(log', LineRoots(outcomes))
  {
    forall k | 0 <= k < |outcomes|
      ensures outcomes[k].root.serial in Accepted(log) <==> outcomes[k].root.serial in Accepted(log')
    {
      assert LineSerials(outcomes)[k] in taken;
      SweptNotTaken(l, taken, outcomes[k].root.serial);
      OthersUntouched(log, log', RootSerials(l.rs), outcomes[k].root.serial);
    }
    LinesStay(e, log, e', log', terms, None, outcomes);
    ReachedStays(log, log', LineRoots(outcomes));
  }

  /** What a walk reports, `split` being how much of the log is its roots'. */
  ghost predicate WalkOk(e: Env, log: seq<Deed>, terms: Terms, outcomes: seq<Report>, swept: seq<Report>, l: Listing,
                         split: nat) {
    && Distinct(LineSerials(outcomes) + LineSerials(swept)) && Complete(l.at, outcomes, swept) && NoRoots(l)
    && multiset(LineRoots(swept)) == multiset(l.rs) && AllReached(log, LineRoots(outcomes))
    && LinesOk(e, log, terms, None, outcomes) && LinesOk(e, log, terms, Some(l.own), swept)
    && split <= |log| && KilledLate(log[..split], log, terms, l.own) && KilledInTime(log[..split], log, terms)
    && AllShown(e, [], log) && (forall i :: i in Accepted(log) ==> HoldsKill(LaneOf(e, i)))
    && AllHeard(e, LineRoots(outcomes)) && LeftKilled(e, l.rs)
    && forall k :: split <= k < |log| ==> log[k].i in RootSerials(l.rs)
  }

  /** The walk over `roots`. Every root given, and everything registered once the roots are done, is reported exactly
      once, roots among the outcomes and the rest among the swept; every line says of its incarnation what is so when
      the walk returns; every root was reached; and no `Kill` is tried on a leftover before the system's deadline
      unless its wait fails, nor before the call's own unless another call folded an earlier one. The sweep begins at
      `begun` and folds its deadline at `fold`. Every `Kill` said to be taken stands, every root still registered has
      heard of the shutdown, those forced and the leftovers still running of a `Kill`. */
  method ShutdownWalk(w: World, terms: Terms, roots: seq<Root>)
    returns (outcomes: seq<Report>, swept: seq<Report>, ghost c: Course, ghost l: Listing, ghost split: nat,
             ghost begun: Env, ghost fold: Env)
    requires RegistryOk(w.env.registry) && w.log == [] && w.env.mine.None? && Distinct(RootSerials(roots))
    modifies w
    ensures w.RanAndFolded() && Later(old(w.env), l.at) && Later(l.at, w.env)
    ensures Onward(old(w.env), begun) && Onward(begun, fold) && Later(fold, l.at)
    ensures SweepsBy(fold, l, Max(terms.deadline, begun.now + 1)) && fold.now <= begun.now + terms.lag
    ensures c.start == old(w.env.now) && WalkOk(w.env, w.log, terms, outcomes, swept, l, split)
    ensures |roots| <= |outcomes| && Reported(outcomes[..|roots|], roots, c.cut) && CourseOk(w.log, 0, terms, roots, c)
    ensures AllKillHeard(w.env, roots[c.cut..])
    ensures old(NoMoreRoots(w.env, SerialSet(roots))) ==>
              && |outcomes| == |roots|
              && w.env.now <=
                 Max(old(w.env.now), terms.deadline) + LongestForce(roots) + 1 + terms.lag + LongestForce(l.rs)
  {
    hide Later, Between, AllShown, AllHeard, AllKillHeard, LeftKilled, CourseOk, KilledLate, KilledInTime, LinesOk;
    var taken;
    outcomes, taken, c := StopAllRoots(w, terms, roots);
    ghost var e, log := w.env, w.log;
    RegistryStays(old(w.env), e);
    split := |log|;
    begun := w.env;
    swept, l, fold := SweepLeftovers(w, terms, taken);
    TrailTrans(old(w.env), old(w.log), e, log, w.env, w.log);
    LaterTrans(old(w.env), e, l.at);
    StillNoMore(e, l.at, taken);
    ApartLines(outcomes, swept, taken, l);
    CompleteReport(outcomes, swept, taken, l);
    RootsStand(e, log, w.env, w.log, terms, outcomes, taken, l);
    CourseStays(log, w.log, 0, terms, roots, c);
    TrailShown(old(w.env), [], w.env, w.log);
    CourseHeard(w.env, [], w.log, terms, roots, c);
    ReachedHeard(w.env, w.log, LineRoots(outcomes));
    assert w.log[..split] == log && Accepted([]) == {};
  }

  /** A shutdown: the first snapshot, most recently registered first, and the walk over it. Its outcomes are about
      exactly the roots registered at its entry, each once, in reverse registration order up to the cut; the leftovers
      are given the timeout asked for, counted from the entry, unless another call folded an earlier deadline. */
  method ShutdownWith(w: World, perActor: nat, timeout: nat, badForces: set<nat>, badWaits: set<nat>, lag: nat)
    returns (outcomes: seq<Report>, swept: seq<Report>, ghost terms: Terms, ghost roots: seq<Root>, ghost c: Course,
             ghost l: Listing, ghost split: nat, ghost begun: Env, ghost fold: Env)
    requires RegistryOk(w.env.registry) && w.log == [] && w.env.mine.None?
    modifies w
    ensures w.RanAndFolded() && Later(old(w.env), l.at) && Later(l.at, w.env)
    ensures Onward(old(w.env), begun) && Onward(begun, fold) && Later(fold, l.at)
    ensures SweepsBy(fold, l, Max(terms.deadline, begun.now + 1)) && fold.now <= begun.now + lag
    ensures c.start == old(w.env.now)
    ensures terms == Terms(perActor, SaturatingDeadline(old(w.env.now), timeout), badForces, badWaits, lag)
    ensures Descending(roots) && Snapshots(old(w.env), Wanted(old(w.env), true, {}), roots)
    ensures Reported(outcomes, roots, c.cut) && CourseOk(w.log, 0, terms, roots, c)
    ensures AllKillHeard(w.env, roots[c.cut..])
    ensures WalkOk(w.env, w.log, terms, outcomes, swept, l, split)
    ensures w.env.now <= old(w.env.now) + Min(timeout, FAR_FUTURE) + LongestForce(roots) + 1 + lag + LongestForce(l.rs)
  {
    var goingBy := Terms(perActor, SaturatingDeadline(w.env.now, timeout), badForces, badWaits, lag);
    var first := Snapshot(w.env, true, {});
    DescendingDistinct(first);
    terms, roots := goingBy, first;
    LaterSelf(w.env);
    TakenAll(w.env, w.env, {}, first);
    assert {} + SerialSet(first) == SerialSet(first);
    outcomes, swept, c, l, split, begun, fold := ShutdownWalk(w, goingBy, first);
    assert outcomes[..|roots|] == outcomes;
  }
}
