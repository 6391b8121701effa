/** All roots of one shutdown: those of its first snapshot, then pass after pass until none is left to take on. */
module Passes {
  import opened Base
  import opened World
  import opened Walk
  import opened Force
  import opened Shutdown

  // ----- Reported once

  lemma {:induction false} OnceEach<T>(s: seq<T>)
    requires Distinct(s)
    ensures forall i :: multiset(s)[i] <= 1
  {
    if s != [] {
      var n := |s| - 1;
      assert s == s[..n] + [s[n]];
      OnceEach(s[..n]);
      assert s[n] !in s[..n];
    }
  }

  lemma DistinctIfOnce<T>(s: seq<T>)
    requires forall i :: multiset(s)[i] <= 1
    ensures Distinct(s)
  {
    forall i, j | 0 <= i < j < |s| ensures s[i] != s[j] {
      assert s == s[..j] + [s[j]] + s[j + 1..];
      assert s[..j][i] == s[i];
      assert multiset(s) == multiset(s[..j]) + multiset{s[j]} + multiset(s[j + 1..]);
      assert s[i] in multiset(s[..j]);
      assert multiset(s)[s[j]] <= 1;
    }
  }

  /** The same roots, in another order, with no serial twice. */
  lemma SameRoots(rs: seq<Root>, other: seq<Root>)
    requires multiset(rs) == multiset(other) && Distinct(RootSerials(rs))
    ensures Distinct(RootSerials(other)) && forall i :: i in RootSerials(rs) <==> i in RootSerials(other)
  {
    forall i, j | 0 <= i < j < |rs| ensures rs[i] != rs[j] {
      assert RootSerials(rs)[i] != RootSerials(rs)[j];
    }
    OnceEach(rs);
    DistinctIfOnce(other);
    forall i | 0 <= i < |other| ensures other[i] in rs {
      assert other[i] in multiset(other);
    }
    forall i | 0 <= i < |rs| ensures rs[i] in other {
      assert rs[i] in multiset(rs);
    }
    SerialsAmong(other, rs);
    SerialsAmong(rs, other);
    forall i, j | 0 <= i < j < |other| ensures RootSerials(other)[i] != RootSerials(other)[j] {
      var m :| 0 <= m < |rs| && rs[m] == other[i];
      var n :| 0 <= n < |rs| && rs[n] == other[j];
      assert RootSerials(rs)[m] == other[i].serial && RootSerials(rs)[n] == other[j].serial;
    }
  }

  lemma SerialsAmong(a: seq<Root>, b: seq<Root>)
    requires forall i :: 0 <= i < |a| ==> a[i] in b
    ensures forall i :: i in RootSerials(a) ==> i in RootSerials(b)
  {
    forall i | i in RootSerials(a) ensures i in RootSerials(b) {
      var k :| 0 <= k < |a| && RootSerials(a)[k] == i;
      var n :| 0 <= n < |b| && b[n] == a[k];
      assert RootSerials(b)[n] == i;
    }
  }

  function LineSerials(rs: seq<Report>): seq<nat> { RootSerials(LineRoots(rs)) }

  function SerialSet(rs: seq<Root>): set<nat> { set i | 0 <= i < |rs| :: rs[i].serial }

  lemma SerialSetIs(rs: seq<Root>)
    ensures forall i :: i in SerialSet(rs) <==> i in RootSerials(rs)
  {
    forall i | i in SerialSet(rs) ensures i in RootSerials(rs) {
      var k :| 0 <= k < |rs| && rs[k].serial == i;
      assert RootSerials(rs)[k] == i;
    }
  }

  /** The lines so far are about the incarnations taken on, each once. */
  ghost predicate Tally(outcomes: seq<Report>, taken: set<nat>) {
    Distinct(LineSerials(outcomes)) && forall i :: i in LineSerials(outcomes) <==> i in taken
  }

  /** Only the incarnations taken on have been dealt with. */
  predicate OnlyTaken(log: seq<Deed>, taken: set<nat>) { forall k :: 0 <= k < |log| ==> log[k].i in taken }

  lemma SameReached(log: seq<Deed>, rs: seq<Root>, lines: seq<Report>)
    requires AllReached(log, rs) && multiset(LineRoots(lines)) == multiset(rs)
    ensures AllReached(log, LineRoots(lines))
  {
    forall n | 0 <= n < |lines| ensures Reached(log, LineRoots(lines)[n]) {
      assert LineRoots(lines)[n] in multiset(LineRoots(lines));
      assert LineRoots(lines)[n] in multiset(rs);
      var k :| 0 <= k < |rs| && rs[k] == LineRoots(lines)[n];
      assert Reached(log, rs[k]);
    }
  }

  lemma AppendReached(log: seq<Deed>, a: seq<Report>, b: seq<Report>)
    requires AllReached(log, LineRoots(a)) && AllReached(log, LineRoots(b))
    ensures AllReached(log, LineRoots(a + b))
  {
    forall n | 0 <= n < |a + b| ensures Reached(log, LineRoots(a + b)[n]) {
      if n < |a| {
        assert Reached(log, LineRoots(a)[n]);
      } else {
        assert Reached(log, LineRoots(b)[n - |a|]);
      }
    }
  }

  /** A batch of roots taken on after the others extends the tally. */
  lemma TallyGrows(outcomes: seq<Report>, taken: set<nat>, more: seq<Report>, rs: seq<Root>)
    requires Tally(outcomes, taken) && Distinct(RootSerials(rs)) && SerialSet(rs) !! taken
    requires multiset(LineRoots(more)) == multiset(rs)
    ensures Tally(outcomes + more, taken + SerialSet(rs))
  {
    SameRoots(rs, LineRoots(more));
    SerialSetIs(rs);
    var a, b := LineSerials(outcomes), LineSerials(more);
    assert LineSerials(outcomes + more) == a + b;
    forall i, j | 0 <= i < |a| && 0 <= j < |b| ensures a[i] != b[j] {
      assert a[i] in taken && b[j] in SerialSet(rs);
    }
  }

  /** The state of the roots' part of a walk. */
  ghost predicate RootsOk(e: Env, log: seq<Deed>, terms: Terms, outcomes: seq<Report>, taken: set<nat>) {
    && Tally(outcomes, taken) && OnlyTaken(log, taken) && AllReached(log, LineRoots(outcomes))
    && LinesOk(e, log, terms, None, outcomes)
  }

  lemma BatchKeeps(e: Env, log: seq<Deed>, e': Env, log': seq<Deed>, terms: Terms, outcomes: seq<Report>,
                   taken: set<nat>,
                   rs: seq<Root>)
    requires RootsOk(e, log, terms, outcomes, taken) && SerialSet(rs) !! taken
    requires Later(e, e') && About(log, log', RootSerials(rs))
    ensures LinesOk(e', log', terms, None, outcomes) && AllReached(log', LineRoots(outcomes))
    ensures OnlyTaken(log', taken + SerialSet(rs))
  {
    SerialSetIs(rs);
    forall k | 0 <= k < |outcomes|
      ensures outcomes[k].root.serial in Accepted(log) <==> outcomes[k].root.serial in Accepted(log')
    {
      assert LineSerials(outcomes)[k] in taken;
      OthersUntouched(log, log', RootSerials(rs), outcomes[k].root.serial);
    }
    LinesStay(e, log, e', log', terms, None, outcomes);
    ReachedStays(log, log', LineRoots(outcomes));
    forall k | 0 <= k < |log'| ensures log'[k].i in taken + SerialSet(rs) {
      assert k < |log| ==> log'[k] == log[k];
    }
  }

  lemma NotTakenFresh(log: seq<Deed>, taken: set<nat>, rs: seq<Root>)
    requires OnlyTaken(log, taken) && SerialSet(rs) !! taken
    ensures AllFresh(log, rs, 0)
  {
    forall n | 0 <= n < |rs| ensures Fresh(log, rs[n].serial) {
      assert rs[n].serial in SerialSet(rs);
    }
  }

  lemma {:induction false} LongestOfRest(rs: seq<Root>, n: nat)
    requires n <= |rs|
    ensures LongestForce(rs[n..]) <= LongestForce(rs)
  {
    if n > 0 {
      assert rs[n..] == rs[1..][n - 1..];
      LongestOfRest(rs[1..], n - 1);
    } else {
      assert rs[n..] == rs;
    }
  }

  lemma MoreTaken(e: Env, log: seq<Deed>, e': Env, log': seq<Deed>, terms: Terms, outcomes: seq<Report>,
                  taken: set<nat>,
                  rs: seq<Root>, more: seq<Report>)
    requires RootsOk(e, log, terms, outcomes, taken) && Distinct(RootSerials(rs)) && SerialSet(rs) !! taken
    requires Later(e, e') && About(log, log', RootSerials(rs)) && AllReached(log', rs)
    requires multiset(LineRoots(more)) == multiset(rs) && LinesOk(e', log', terms, None, more)
    ensures RootsOk(e', log', terms, outcomes + more, taken + SerialSet(rs))
  {
    TallyGrows(outcomes, taken, more, rs);
    BatchKeeps(e, log, e', log', terms, outcomes, taken, rs);
    SameReached(log', rs, more);
    AppendLines(e', log', terms, None, outcomes, more);
    AppendReached(log', outcomes, more);
  }

  /** One pass over roots not taken on yet: they are stopped and their lines follow those there are. */
  method StopMore(w: World, terms: Terms, rs: seq<Root>, outcomes: seq<Report>, taken: set<nat>)
    returns (outcomes': seq<Report>, ghost c: Course)
    requires RootsOk(w.env, w.log, terms, outcomes, taken) && Distinct(RootSerials(rs)) && SerialSet(rs) !! taken
    modifies w
    ensures w.Ran() && w.env.now <= Max(old(w.env.now), terms.deadline) + LongestForce(rs)
    ensures c.start == old(w.env.now) && w.env.now <= c.at + LongestForce(rs)
    ensures RootsOk(w.env, w.log, terms, outcomes', taken + SerialSet(rs))
    ensures CourseOk(w.log, |old(w.log)|, terms, rs, c)
    ensures outcomes <= outcomes' && Reported(outcomes'[|outcomes|..], rs, c.cut)
    ensures AllShown(w.env, old(w.log), w.log) && AllHeard(w.env, rs) && AllKillHeard(w.env, rs[c.cut..])
  {
    hide Later, Between, AllShown, AllHeard, AllKillHeard;
    NotTakenFresh(w.log, taken, rs);
    var more;
    more, c := StopRoots(w, terms, rs);
    LongestOfRest(rs, c.cut);
    ReportedOnce(more, rs, c.cut);
    CourseReaches(w.log, |old(w.log)|, terms, rs, c);
    MoreTaken(old(w.env), old(w.log), w.env, w.log, terms, outcomes, taken, rs, more);
    outcomes' := outcomes + more;
    assert outcomes'[|outcomes|..] == more;
  }

  /** Nothing registered is a root still to be taken on. */
  predicate NoMoreRoots(e: Env, taken: set<nat>) { Wanted(e, true, taken) == {} }

  lemma TakenAll(e: Env, e': Env, taken: set<nat>, rs: seq<Root>)
    requires Later(e, e') && Snapshots(e, Wanted(e, true, taken), rs)
    ensures NoMoreRoots(e', taken + SerialSet(rs))
  {
    forall k | k in e'.registry && e'.registry[k].isRoot ensures e'.registry[k].serial in taken + SerialSet(rs) {
      assert EntryLater(e.registry[k], e'.registry[k]);
      if e.registry[k].serial !in taken {
        assert k in Wanted(e, true, taken);
        var i :| 0 <= i < |rs| && RootSerials(rs)[i] == e.registry[k].serial;
      }
    }
  }

  /** A pass leaves fewer roots to take on. */
  lemma FewerWanted(e: Env, e': Env, taken: set<nat>, rs: seq<Root>)
    requires Later(e, e') && Snapshots(e, Wanted(e, true, taken), rs) && rs != []
    ensures |Wanted(e', true, taken + SerialSet(rs))| < |Wanted(e, true, taken)|
  {
    TakenAll(e, e', taken, rs);
    assert rs[0].id in Wanted(e, true, taken);
  }

  lemma FreshSnapshots(e: Env, taken: set<nat>, rootsOnly: bool, rs: seq<Root>)
    requires Snapshots(e, Wanted(e, rootsOnly, taken), rs)
    ensures SerialSet(rs) !! taken
  {
  }

  lemma StillNoMore(e: Env, e': Env, taken: set<nat>)
    requires Later(e, e') && NoMoreRoots(e, taken)
    ensures NoMoreRoots(e', taken)
  {
    forall k | k in e'.registry && e'.registry[k].isRoot ensures e'.registry[k].serial in taken {
      assert EntryLater(e.registry[k], e'.registry[k]) && k !in Wanted(e, true, taken);
    }
  }

  /** Pass after pass, whichever root is registered and not taken on is stopped. It ends, since no root registers
      meanwhile; and it does nothing when every root has been taken on. */
  method StopLateRoots(w: World, terms: Terms, outcomes: seq<Report>, taken: set<nat>)
    returns (outcomes': seq<Report>, taken': set<nat>)
    requires RegistryOk(w.env.registry) && RootsOk(w.env, w.log, terms, outcomes, taken)
    modifies w
    ensures w.Ran() && NoMoreRoots(w.env, taken') && RootsOk(w.env, w.log, terms, outcomes', taken')
    ensures outcomes <= outcomes' && AllShown(w.env, old(w.log), w.log)
    ensures old(NoMoreRoots(w.env, taken)) ==>
              outcomes' == outcomes && taken' == taken && w.env == old(w.env) && w.log == old(w.log)
  {
    hide Later, Between, RootsOk;
    outcomes', taken' := outcomes, taken;
    LaterSelf(w.env);
    while true
      invariant w.Ran() && RegistryOk(w.env.registry)
      invariant RootsOk(w.env, w.log, terms, outcomes', taken') && outcomes <= outcomes'
      invariant old(NoMoreRoots(w.env, taken)) ==>
                  outcomes' == outcomes && taken' == taken && w.env == old(w.env) && w.log == old(w.log)
      decreases |Wanted(w.env, true, taken')|
    {
      var late := Snapshot(w.env, true, taken');
      if late == [] {
        TrailShown(old(w.env), old(w.log), w.env, w.log);
        return;
      }
      ghost var e, log := w.env, w.log;
      ghost var c;
      FreshSnapshots(w.env, taken', true, late);
      DescendingDistinct(late);
      outcomes', c := StopMore(w, terms, late, outcomes', taken');
      TrailTrans(old(w.env), old(w.log), e, log, w.env, w.log);
      RegistryStays(e, w.env);
      FewerWanted(e, w.env, taken', late);
      TakenAll(e, w.env, taken', late);
      taken' := taken' + SerialSet(late);
    }
  }

  lemma RootsBegin(e: Env, terms: Terms)
    ensures RootsOk(e, [], terms, [], {})
  {
  }

  /** The roots: those given, then whichever others are registered. The first lines are those of the roots given, in
      their order up to the cut; when no other root was registered, those are all. Every root reported and still
      registered has heard of it. */
  method StopAllRoots(w: World, terms: Terms, roots: seq<Root>)
    returns (outcomes: seq<Report>, taken: set<nat>, ghost c: Course)
    requires RegistryOk(w.env.registry) && w.log == [] && Distinct(RootSerials(roots))
    modifies w
    ensures w.Ran() && NoMoreRoots(w.env, taken) && RootsOk(w.env, w.log, terms, outcomes, taken)
    ensures |roots| <= |outcomes| && Reported(outcomes[..|roots|], roots, c.cut) && CourseOk(w.log, 0, terms, roots, c)
    ensures AllShown(w.env, [], w.log) && AllHeard(w.env, LineRoots(outcomes)) && AllKillHeard(w.env, roots[c.cut..])
    ensures c.start == old(w.env.now)
    ensures old(NoMoreRoots(w.env, SerialSet(roots))) ==>
              && |outcomes| == |roots| && w.env.now <= Max(old(w.env.now), terms.deadline) + LongestForce(roots)
              && w.env.now <= c.at + LongestForce(roots)
  {
    hide Later, Between, AllShown, AllHeard, AllKillHeard, LinesOk, CourseOk;
    RootsBegin(w.env, terms);
    var first;
    first, c := StopMore(w, terms, roots, [], {});
    assert first[0..] == first;
    ghost var e, log := w.env, w.log;
    RegistryStays(old(w.env), e);
    if NoMoreRoots(old(w.env), SerialSet(roots)) {
      StillNoMore(old(w.env), w.env, SerialSet(roots));
    }
    assert {} + SerialSet(roots) == SerialSet(roots);
    outcomes, taken := StopLateRoots(w, terms, first, SerialSet(roots));
    TrailTrans(old(w.env), old(w.log), e, log, w.env, w.log);
    CourseStays(log, w.log, 0, terms, roots, c);
    TrailShown(old(w.env), [], w.env, w.log);
    CourseHeard(w.env, [], w.log, terms, roots, c);
    ReachedHeard(w.env, w.log, LineRoots(outcomes));
    assert outcomes[..|roots|] == first;
  }
}
