/** A batch of roots: its snapshot, and how it is stopped in order. */
module Shutdown {
  import opened Base
  import opened Lane
  import opened Verdict
  import opened World
  import opened Walk
  import opened Force

  /** The ids of the incarnations registered and not taken on yet; of the roots alone when `rootsOnly`. */
  function Wanted(e: Env, rootsOnly: bool, taken: set<nat>): set<nat> {
    set k | k in e.registry && (rootsOnly ==> e.registry[k].isRoot) && e.registry[k].serial !in taken
  }

  /** Most recently registered first, each serial once. */
  predicate Descending(rs: seq<Root>) { forall i, j :: 0 <= i < j < |rs| ==> rs[i].serial > rs[j].serial }

  /** `rs` are snapshots of exactly the entries under `ids`. */
  predicate Snapshots(e: Env, ids: set<nat>, rs: seq<Root>) {
    && (forall k :: k in ids ==> k in e.registry && e.registry[k].serial in RootSerials(rs))
    && (forall i :: 0 <= i < |rs| ==>
                      rs[i].id in ids && rs[i].id in e.registry && e.registry[rs[i].id].serial == rs[i].serial
                      && e.registry[rs[i].id].grace == rs[i].grace)
  }

  lemma InsertedSerials(rs: seq<Root>, p: nat, r: Root)
    requires p <= |rs|
    ensures forall i :: i in RootSerials(rs[..p] + [r] + rs[p..]) <==> i == r.serial || i in RootSerials(rs)
  {
    var out := rs[..p] + [r] + rs[p..];
    forall i | i in RootSerials(out) ensures i == r.serial || i in RootSerials(rs) {
      var k :| 0 <= k < |out| && RootSerials(out)[k] == i;
      assert k < p ==> RootSerials(rs)[k] == i;
      assert k > p ==> RootSerials(rs)[k - 1] == i;
    }
    forall i | i == r.serial || i in RootSerials(rs) ensures i in RootSerials(out) {
      if i == r.serial {
        assert RootSerials(out)[p] == i;
      } else {
        var k :| 0 <= k < |rs| && RootSerials(rs)[k] == i;
        assert RootSerials(out)[if k < p then k else k + 1] == i;
      }
    }
  }

  predicate FitsAt(rs: seq<Root>, p: nat, serial: nat) {
    && p <= |rs|
    && (forall i :: 0 <= i < p ==> rs[i].serial > serial) && (forall i :: p <= i < |rs| ==> rs[i].serial < serial)
  }

  /** Where a serial goes in a descending snapshot. */
  method Place(rs: seq<Root>, serial: nat) returns (p: nat)
    requires Descending(rs) && serial !in RootSerials(rs)
    ensures FitsAt(rs, p, serial)
  {
    p := 0;
    while p < |rs| && rs[p].serial > serial
      invariant p <= |rs| && forall i :: 0 <= i < p ==> rs[i].serial > serial
    {
      p := p + 1;
    }
    assert p < |rs| ==> RootSerials(rs)[p] == rs[p].serial;
  }

  lemma InsertKeeps(e: Env, ids: set<nat>, rs: seq<Root>, p: nat, id: nat)
    requires id in e.registry && Descending(rs) && Snapshots(e, ids, rs) && FitsAt(rs, p, e.registry[id].serial)
    ensures var out := rs[..p] + [Root(id, e.registry[id].serial, e.registry[id].grace)] + rs[p..];
            Descending(out) && Snapshots(e, ids + {id}, out)
  {
    InsertedSerials(rs, p, Root(id, e.registry[id].serial, e.registry[id].grace));
  }

  lemma NotYet(e: Env, ids: set<nat>, rs: seq<Root>, id: nat)
    requires RegistryOk(e.registry) && Snapshots(e, ids, rs) && id in e.registry && id !in ids
    ensures e.registry[id].serial !in RootSerials(rs)
  {
    forall i | 0 <= i < |rs| ensures RootSerials(rs)[i] != e.registry[id].serial {
      assert rs[i].id in ids;
    }
  }

  /** The entries wanted, collected from the registry and sorted, most recently registered first. */
  method Snapshot(e: Env, rootsOnly: bool, taken: set<nat>) returns (rs: seq<Root>)
    requires RegistryOk(e.registry)
    ensures Descending(rs) && Snapshots(e, Wanted(e, rootsOnly, taken), rs)
  {
    rs := [];
    var left, done := Wanted(e, rootsOnly, taken), {};
    while left != {}
      invariant done + left == Wanted(e, rootsOnly, taken) && done !! left
      invariant Descending(rs) && Snapshots(e, done, rs)
      decreases left
    {
      var id :| id in left;
      NotYet(e, done, rs, id);
      var p := Place(rs, e.registry[id].serial);
      InsertKeeps(e, done, rs, p, id);
      rs, done := rs[..p] + [Root(id, e.registry[id].serial, e.registry[id].grace)] + rs[p..], done + {id};
      left := left - {id};
    }
  }

  lemma DescendingDistinct(rs: seq<Root>)
    requires Descending(rs)
    ensures Distinct(RootSerials(rs))
  {
  }

  // ----- A batch of roots

  /** The lines of `rs` up to `cut` are about `roots` in their order, the rest about the other roots in any order:
      each of them once. */
  predicate Reported(rs: seq<Report>, roots: seq<Root>, cut: nat) {
    && cut <= |roots| == |rs|
    && LineRoots(rs)[..cut] == roots[..cut] && multiset(LineRoots(rs)[cut..]) == multiset(roots[cut..])
  }

  lemma ReportedOnce(rs: seq<Report>, roots: seq<Root>, cut: nat)
    requires Reported(rs, roots, cut)
    ensures multiset(LineRoots(rs)) == multiset(roots)
  {
    assert LineRoots(rs) == LineRoots(rs)[..cut] + LineRoots(rs)[cut..];
    assert roots == roots[..cut] + roots[cut..];
  }

  /** How a batch went: begun at `start`, the ladder of its `k`-th root is logged from `places[k]` on, and the roots
      from `cut` on had a `Kill` tried from `forced` on, at `at`, when the ladders were over. */
  datatype Course = Course(start: nat, cut: nat, places: seq<nat>, forced: nat, at: nat)

  /** Where the `k`-th ladder ends in the log: at the next, and the last of them at `end`. */
  function PlaceAfter(places: seq<nat>, k: nat, end: nat): nat { if k + 1 < |places| then places[k + 1] else end }

  /** The ladder logged at `p` is over by `now`: no longer after its first request than its bound. */
  predicate OverBy(log: seq<Deed>, p: nat, terms: Terms, root: Root, now: nat) {
    p < |log| && now <= log[p].at.now + LadderBound(terms, root)
  }

  /** The next ladder begins once this one is over. */
  predicate Spaced(log: seq<Deed>, p: nat, q: nat, terms: Terms, root: Root) {
    q < |log| && OverBy(log, p, terms, root, log[q].at.now)
  }

  /** One ladder after another in the order given, at once and nothing else in between, up to the root whose ladder is
      cut; and then a `Kill` on it and on each root after it, all at the deadline, or at once when that had passed. */
  predicate CourseOk(log: seq<Deed>, from: nat, terms: Terms, roots: seq<Root>, c: Course) {
    && c.cut <= |roots| && |c.places| == Min(c.cut + 1, |roots|) && from <= c.forced <= |log|
    && (if c.places == [] then c.forced == from else c.places[0] == from < |log| && log[from].at.now == c.start)
    && (forall k :: 0 <= k < |c.places| ==>
        LadderLog(log, c.places[k], PlaceAfter(c.places, k, c.forced), terms, roots[k]))
    && (forall k :: 0 <= k < |c.places| - 1 ==> Spaced(log, c.places[k], c.places[k + 1], terms, roots[k]))
    && (c.places == [] ==> c.at == c.start)
    && (c.places != [] ==> OverBy(log, c.places[|c.places| - 1], terms, roots[|c.places| - 1], c.at))
    && (c.cut < |roots| ==>
          CutAt(log, c.places[c.cut], c.forced, terms, roots[c.cut])
              && c.at == Max(log[c.places[c.cut]].at.now, terms.deadline))
    && KilledAt(log, c.forced, roots[c.cut..], c.at)
  }

  /** The first `n` roots are done, their ladders logged one after another up to the end of the log, at `now`. */
  predicate LaddersOk(log: seq<Deed>, from: nat, start: nat, now: nat, terms: Terms, roots: seq<Root>, n: nat,
                      places: seq<nat>) {
    && |places| == n <= |roots| && from <= |log|
    && (if n == 0 then |log| == from && now == start else places[0] == from < |log| && log[from].at.now == start)
    && (forall k :: 0 <= k < n ==> LadderLog(log, places[k], PlaceAfter(places, k, |log|), terms, roots[k]))
    && (forall k :: 0 <= k < n - 1 ==> Spaced(log, places[k], places[k + 1], terms, roots[k]))
    && (n > 0 ==> OverBy(log, places[n - 1], terms, roots[n - 1], now))
  }

  lemma LadderStays(log: seq<Deed>, log': seq<Deed>, from: nat, to: nat, terms: Terms, root: Root)
    requires log <= log' && LadderLog(log, from, to, terms, root)
    ensures LadderLog(log', from, to, terms, root)
  {
    forall k | from <= k < to ensures log'[k].i == root.serial {
      assert log'[k] == log[k];
    }
  }

  lemma OneMoreLadder(log: seq<Deed>, log': seq<Deed>, from: nat, start: nat, now: nat, now': nat, terms: Terms,
                      roots: seq<Root>, n: nat, places: seq<nat>)
    requires LaddersOk(log, from, start, now, terms, roots, n, places) && n < |roots| && log <= log'
    requires |log| < |log'| && LadderLog(log', |log|, |log'|, terms, roots[n]) && log'[|log|].at.now == now
    requires OverBy(log', |log|, terms, roots[n], now')
    ensures LaddersOk(log', from, start, now', terms, roots, n + 1, places + [|log|])
  {
    hide LadderLog, LadderBound, OverBy, Spaced;
    var ps := places + [|log|];
    forall k | 0 <= k < n + 1 ensures LadderLog(log', ps[k], PlaceAfter(ps, k, |log'|), terms, roots[k]) {
      if k < n {
        LadderStays(log, log', places[k], PlaceAfter(places, k, |log|), terms, roots[k]);
      }
    }
    forall k | 0 <= k < n ensures Spaced(log', ps[k], ps[k + 1], terms, roots[k]) {
      if k < n - 1 {
        SpacedStays(log, log', places[k], places[k + 1], terms, roots[k]);
      } else {
        SpacedNow(log, log', places[k], now, terms, roots[k]);
      }
    }
  }

  lemma SpacedStays(log: seq<Deed>, log': seq<Deed>, p: nat, q: nat, terms: Terms, root: Root)
    requires Spaced(log, p, q, terms, root) && log <= log'
    ensures Spaced(log', p, q, terms, root)
  {
  }

  lemma SpacedNow(log: seq<Deed>, log': seq<Deed>, p: nat, now: nat, terms: Terms, root: Root)
    requires OverBy(log, p, terms, root, now) && log <= log' && |log| < |log'| && log'[|log|].at.now == now
    ensures Spaced(log', p, |log|, terms, root)
  {
  }

  lemma CourseMade(log: seq<Deed>, log': seq<Deed>, from: nat, start: nat, now: nat, terms: Terms, roots: seq<Root>,
                   n: nat, cut: nat, places: seq<nat>)
    requires LaddersOk(log, from, start, now, terms, roots, n, places) && log <= log'
    requires cut <= |roots| && n == Min(cut + 1, |roots|)
    requires cut < |roots| ==>
               places[cut] < |log| && CutAt(log, places[cut], |log|, terms, roots[cut])
                   && now == Max(log[places[cut]].at.now, terms.deadline)
    requires KilledAt(log', |log|, roots[cut..], now)
    ensures CourseOk(log', from, terms, roots, Course(start, cut, places, |log|, now))
  {
    hide LadderLog, LadderBound;
    forall k | 0 <= k < n
      ensures LadderLog(log', places[k], PlaceAfter(places, k, |log|), terms, roots[k])
    {
      LadderStays(log, log', places[k], PlaceAfter(places, k, |log|), terms, roots[k]);
    }
    forall k | 0 <= k < n - 1 ensures Spaced(log', places[k], places[k + 1], terms, roots[k]) {
      SpacedStays(log, log', places[k], places[k + 1], terms, roots[k]);
    }
  }

  lemma CourseStays(log: seq<Deed>, log': seq<Deed>, from: nat, terms: Terms, roots: seq<Root>, c: Course)
    requires CourseOk(log, from, terms, roots, c) && log <= log'
    ensures CourseOk(log', from, terms, roots, c)
  {
    hide LadderLog, LadderBound, KilledAt, OverBy, Spaced;
    forall k | 0 <= k < |c.places|
      ensures LadderLog(log', c.places[k], PlaceAfter(c.places, k, c.forced), terms, roots[k])
    {
      LadderStays(log, log', c.places[k], PlaceAfter(c.places, k, c.forced), terms, roots[k]);
    }
    forall k | 0 <= k < |c.places| - 1 ensures Spaced(log', c.places[k], c.places[k + 1], terms, roots[k]) {
      SpacedStays(log, log', c.places[k], c.places[k + 1], terms, roots[k]);
    }
    KilledStays(log, log', c.forced, roots[c.cut..], c.at);
    if c.places != [] {
      OverByStays(log, log', c.places[|c.places| - 1], terms, roots[|c.places| - 1], c.at);
    }
    if c.cut < |roots| {
      CutStays(log, log', c.places[c.cut], c.forced, terms, roots[c.cut]);
    }
  }

  lemma OverByStays(log: seq<Deed>, log': seq<Deed>, p: nat, terms: Terms, root: Root, now: nat)
    requires OverBy(log, p, terms, root, now) && log <= log'
    ensures OverBy(log', p, terms, root, now)
  {
  }

  lemma CutStays(log: seq<Deed>, log': seq<Deed>, from: nat, to: nat, terms: Terms, root: Root)
    requires CutAt(log, from, to, terms, root) && log <= log'
    ensures CutAt(log', from, to, terms, root)
  {
  }

  /** The ladders of `roots`, one after another, at their longest. */
  function AllLadders(terms: Terms, roots: seq<Root>): nat {
    if roots == [] then 0 else AllLadders(terms, roots[..|roots| - 1]) + LadderBound(terms, roots[|roots| - 1])
  }

  lemma {:induction false} LaddersTake(log: seq<Deed>, from: nat, terms: Terms, roots: seq<Root>, c: Course, k: nat)
    requires CourseOk(log, from, terms, roots, c) && k < |c.places|
    ensures c.places[k] < |log| && log[c.places[k]].at.now <= c.start + AllLadders(terms, roots[..k])
  {
    hide LadderLog, LadderBound, KilledAt, CutAt;
    if k > 0 {
      LaddersTake(log, from, terms, roots, c, k - 1);
      assert Spaced(log, c.places[k - 1], c.places[k], terms, roots[k - 1]);
      assert roots[..k][..k - 1] == roots[..k - 1];
    }
  }

  /** The ladders of a batch take no longer than their bounds together. */
  lemma CourseTakes(log: seq<Deed>, from: nat, terms: Terms, roots: seq<Root>, c: Course)
    requires CourseOk(log, from, terms, roots, c)
    ensures c.at <= c.start + AllLadders(terms, roots[..|c.places|])
  {
    hide LadderLog, LadderBound, KilledAt, CutAt;
    if c.places != [] {
      var k := |c.places| - 1;
      LaddersTake(log, from, terms, roots, c, k);
      assert roots[..k + 1][..k] == roots[..k];
    }
  }

  // ----- Who was reached

  /** A stop was asked of the root, or a `Kill` tried on it. */
  ghost predicate Reached(log: seq<Deed>, root: Root) { exists k: nat :: AskedAt(log, k, root) || KillAt(log, k, root) }

  ghost predicate AllReached(log: seq<Deed>, rs: seq<Root>) { forall k :: 0 <= k < |rs| ==> Reached(log, rs[k]) }

  lemma ReachedStays(log: seq<Deed>, log': seq<Deed>, rs: seq<Root>)
    requires log <= log' && AllReached(log, rs)
    ensures AllReached(log', rs)
  {
    forall n | 0 <= n < |rs| ensures Reached(log', rs[n]) {
      assert Reached(log, rs[n]);
      var k: nat :| AskedAt(log, k, rs[n]) || KillAt(log, k, rs[n]);
      assert AskedAt(log', k, rs[n]) || KillAt(log', k, rs[n]);
    }
  }

  lemma LadderSpan(log: seq<Deed>, from: nat, to: nat, terms: Terms, root: Root)
    requires LadderLog(log, from, to, terms, root)
    ensures from < to && AskedAt(log, from, root)
  {
  }

  /** The ladders of a batch are logged within it. */
  lemma {:induction false} LadderBegins(log: seq<Deed>, from: nat, terms: Terms, rs: seq<Root>, c: Course,
                                        k: nat)
    requires CourseOk(log, from, terms, rs, c) && k < |c.places|
    ensures from <= c.places[k] && AskedAt(log, c.places[k], rs[k])
  {
    hide KilledAt, AskedAt, LadderLog;
    if k > 0 {
      LadderBegins(log, from, terms, rs, c, k - 1);
      LadderSpan(log, c.places[k - 1], PlaceAfter(c.places, k - 1, c.forced), terms, rs[k - 1]);
    }
    LadderSpan(log, c.places[k], PlaceAfter(c.places, k, c.forced), terms, rs[k]);
  }

  /** Every root of a batch was reached, by its ladder or by the force. */
  lemma CourseReaches(log: seq<Deed>, from: nat, terms: Terms, rs: seq<Root>, c: Course)
    requires CourseOk(log, from, terms, rs, c)
    ensures AllReached(log, rs)
  {
    hide LadderLog, AskedAt;
    forall n | 0 <= n < |rs| ensures Reached(log, rs[n]) {
      if n < c.cut {
        LadderBegins(log, from, terms, rs, c, n);
      } else {
        assert KillAt(log, c.forced + (n - c.cut), rs[c.cut..][n - c.cut]);
      }
    }
  }

  /** Every one of `rs` still registered has a request standing, or refuses one. */
  predicate AllHeard(e: Env, rs: seq<Root>) {
    forall k :: 0 <= k < |rs| && Registers(e, rs[k].id, rs[k].serial) ==> Heard(LaneOf(e, rs[k].serial), ParentRequest)
  }

  /** Whoever was reached has heard of it. */
  lemma ReachedHeard(e: Env, log: seq<Deed>, rs: seq<Root>)
    requires AllShown(e, [], log) && AllReached(log, rs)
    ensures AllHeard(e, rs)
  {
    forall n | 0 <= n < |rs| && Registers(e, rs[n].id, rs[n].serial)
      ensures Heard(LaneOf(e, rs[n].serial), ParentRequest)
    {
      assert Reached(log, rs[n]);
      var k: nat :| AskedAt(log, k, rs[n]) || KillAt(log, k, rs[n]);
      assert Shown(e, log[k]);
    }
  }

  /** Every root of a batch has heard of it, and those forced of a `Kill`. */
  lemma CourseHeard(e: Env, log: seq<Deed>, log': seq<Deed>, terms: Terms, rs: seq<Root>, c: Course)
    requires AllShown(e, log, log') && CourseOk(log', |log|, terms, rs, c)
    ensures AllHeard(e, rs) && AllKillHeard(e, rs[c.cut..])
  {
    hide LadderLog;
    KillsShown(e, log, log', c.forced, rs[c.cut..], c.at);
    forall n | 0 <= n < |rs| && Registers(e, rs[n].id, rs[n].serial)
      ensures Heard(LaneOf(e, rs[n].serial), ParentRequest)
    {
      if n < c.cut {
        LadderBegins(log', |log|, terms, rs, c, n);
        assert Shown(e, log'[c.places[n]]);
      } else {
        assert rs[c.cut..][n - c.cut] == rs[n];
      }
    }
  }

  // ----- The lines of a batch

  lemma AddForced(rs: seq<Report>, forced: seq<Report>, roots: seq<Root>, n: nat)
    requires n <= |roots| && LineRoots(rs) == roots[..n] && multiset(LineRoots(forced)) == multiset(roots[n..])
    ensures Reported(rs + forced, roots, n)
  {
    assert |multiset(LineRoots(forced))| == |LineRoots(forced)| && |multiset(roots[n..])| == |roots| - n;
    assert LineRoots(rs + forced) == LineRoots(rs) + LineRoots(forced);
  }

  /** A ladder, or a force, of other roots leaves these fresh, and the lines of those before as they were. */
  lemma OthersFresh(log: seq<Deed>, log': seq<Deed>, roots: seq<Root>, n: nat, m: nat)
    requires n <= m <= |roots| && Distinct(RootSerials(roots)) && AllFresh(log, roots, m)
    requires About(log, log', RootSerials(roots[n..m]))
    ensures AllFresh(log', roots, m)
    ensures forall k :: 0 <= k < n ==> (roots[k].serial in Accepted(log) <==> roots[k].serial in Accepted(log'))
  {
    var serials := RootSerials(roots);
    forall k | 0 <= k < n || m <= k < |roots| ensures roots[k].serial !in RootSerials(roots[n..m]) {
      forall j | 0 <= j < m - n ensures RootSerials(roots[n..m])[j] != roots[k].serial {
        assert serials[n + j] == RootSerials(roots[n..m])[j] && serials[k] == roots[k].serial;
      }
    }
    forall k | m <= k < |roots| ensures Fresh(log', roots[k].serial) {
      OthersUntouched(log, log', RootSerials(roots[n..m]), roots[k].serial);
    }
    forall k | 0 <= k < n ensures roots[k].serial in Accepted(log) <==> roots[k].serial in Accepted(log') {
      OthersUntouched(log, log', RootSerials(roots[n..m]), roots[k].serial);
    }
  }

  lemma LadderAbout(log: seq<Deed>, log': seq<Deed>, terms: Terms, roots: seq<Root>, n: nat)
    requires log <= log' && n < |roots| && LadderLog(log', |log|, |log'|, terms, roots[n])
    ensures About(log, log', RootSerials(roots[n..n + 1]))
  {
    assert RootSerials(roots[n..n + 1])[0] == roots[n].serial;
  }

  lemma AboutMore(log: seq<Deed>, log': seq<Deed>, roots: seq<Root>, n: nat, m: nat)
    requires n <= m <= |roots| && About(log, log', RootSerials(roots[n..m]))
    ensures About(log, log', RootSerials(roots))
  {
    forall k | |log| <= k < |log'| ensures log'[k].i in RootSerials(roots) {
      var j :| 0 <= j < m - n && RootSerials(roots[n..m])[j] == log'[k].i;
      assert RootSerials(roots)[n + j] == log'[k].i;
    }
  }

  /** What the loop over the roots has at the `n`-th. */
  ghost predicate BatchOk(e: Env, start: nat, log0: seq<Deed>, log: seq<Deed>, terms: Terms, roots: seq<Root>, n: nat,
                          places: seq<nat>, outcomes: seq<Report>) {
    && n <= |roots| && LineRoots(outcomes) == roots[..n] && LinesOk(e, log, terms, None, outcomes)
    && AllFresh(log, roots, n) && About(log0, log, RootSerials(roots))
    && LaddersOk(log, |log0|, start, e.now, terms, roots, n, places)
  }

  /** The `n`-th ladder has been run: the lines before stand. */
  lemma LadderRan(e: Env, start: nat, log0: seq<Deed>, log: seq<Deed>, e': Env, log': seq<Deed>, terms: Terms,
                  roots: seq<Root>, n: nat, places: seq<nat>, outcomes: seq<Report>)
    requires Distinct(RootSerials(roots)) && BatchOk(e, start, log0, log, terms, roots, n, places, outcomes)
    requires n < |roots| && Later(e, e') && log <= log' && LadderLog(log', |log|, |log'|, terms, roots[n])
    requires |log| < |log'| && log'[|log|].at.now == e.now && OverBy(log', |log|, terms, roots[n], e'.now)
    ensures LinesOk(e', log', terms, None, outcomes) && AllFresh(log', roots, n + 1)
    ensures About(log0, log', RootSerials(roots)) && |places| == n
    ensures LaddersOk(log', |log0|, start, e'.now, terms, roots, n + 1, places + [|log|])
  {
    hide LinesOk, LadderLog, Accepted, Later, OverBy, Distinct;
    LadderAbout(log, log', terms, roots, n);
    OthersFresh(log, log', roots, n, n + 1);
    AboutMore(log, log', roots, n, n + 1);
    AboutTrans(log0, log, log', RootSerials(roots));
    OneMoreLadder(log, log', |log0|, start, e.now, e'.now, terms, roots, n, places);
    forall k | 0 <= k < |outcomes|
      ensures outcomes[k].root.serial in Accepted(log) <==> outcomes[k].root.serial in Accepted(log')
    {
      assert LineRoots(outcomes)[k] == roots[k];
    }
    LinesStay(e, log, e', log', terms, None, outcomes);
  }

  lemma BatchBegins(e: Env, log: seq<Deed>, terms: Terms, roots: seq<Root>)
    requires AllFresh(log, roots, 0)
    ensures BatchOk(e, e.now, log, log, terms, roots, 0, [], [])
  {
  }

  lemma OneMoreLine(e: Env, start: nat, log0: seq<Deed>, log: seq<Deed>, terms: Terms, roots: seq<Root>, n: nat,
                    places: seq<nat>, outcomes: seq<Report>, outcome: Outcome)
    requires n < |roots| && LineRoots(outcomes) == roots[..n] && LinesOk(e, log, terms, None, outcomes)
    requires Honest(e, log, terms, roots[n], outcome) && AllFresh(log, roots, n + 1)
    requires About(log0, log, RootSerials(roots))
    requires LaddersOk(log, |log0|, start, e.now, terms, roots, n + 1, places)
    ensures BatchOk(e, start, log0, log, terms, roots, n + 1, places, outcomes + [Line(roots[n], outcome)])
  {
    hide LaddersOk, About, AllFresh, Honest;
    AppendLines(e, log, terms, None, outcomes, [Line(roots[n], outcome)]);
    assert LineRoots(outcomes + [Line(roots[n], outcome)]) == LineRoots(outcomes) + [roots[n]] == roots[..n + 1];
  }

  lemma BatchDone(e: Env, start: nat, log0: seq<Deed>, log: seq<Deed>, terms: Terms, roots: seq<Root>,
                  places: seq<nat>, outcomes: seq<Report>)
    requires BatchOk(e, start, log0, log, terms, roots, |roots|, places, outcomes)
    ensures CourseOk(log, |log0|, terms, roots, Course(start, |roots|, places, |log|, e.now))
    ensures Reported(outcomes, roots, |roots|)
  {
    CourseMade(log, log, |log0|, start, e.now, terms, roots, |roots|, |roots|, places);
    assert LineRoots(outcomes)[|roots|..] == [] && roots[|roots|..] == [];
  }

  /** The ladder over `roots` in the order given. The first root the deadline cuts goes to one concurrent force with
      every root after it, its mark carried across: the roots before `cut` are reported in their order, the rest as
      their forces end. The ladders' waits together never pass the deadline, each ladder takes no longer than its
      bound, and the one force that may follow takes no longer than the longest bound among its targets. Every root
      still registered at the end has heard of it, and those forced hold a `Kill` or refuse it. */
  method StopRoots(w: World, terms: Terms, roots: seq<Root>) returns (outcomes: seq<Report>, ghost c: Course)
    requires Distinct(RootSerials(roots)) && AllFresh(w.log, roots, 0)
    modifies w
    ensures w.Ran() && CourseOk(w.log, |old(w.log)|, terms, roots, c) && c.start == old(w.env.now)
    ensures About(old(w.log), w.log, RootSerials(roots))
    ensures c.at <= Max(old(w.env.now), terms.deadline) && w.env.now <= c.at + LongestForce(roots[c.cut..])
    ensures Reported(outcomes, roots, c.cut) && LinesOk(w.env, w.log, terms, None, outcomes)
    ensures AllShown(w.env, old(w.log), w.log) && AllHeard(w.env, roots) && AllKillHeard(w.env, roots[c.cut..])
  {
    hide Later, Between, AllShown, AllHeard, AllKillHeard, LinesOk, LaddersOk, CourseOk, KilledAt, Reported, Honest;
    BatchBegins(w.env, w.log, terms, roots);
    outcomes := [];
    ghost var places: seq<nat> := [];
    LaterSelf(w.env);
    for n := 0 to |roots|
      invariant w.Ran() && w.env.now <= Max(old(w.env.now), terms.deadline)
      invariant BatchOk(w.env, old(w.env.now), old(w.log), w.log, terms, roots, n, places, outcomes)
    {
      ghost var e, log := w.env, w.log;
      var r := StopRootSequential(w, terms, roots[n]);
      TrailTrans(old(w.env), old(w.log), e, log, w.env, w.log);
      LadderRan(e, old(w.env.now), old(w.log), log, w.env, w.log, terms, roots, n, places, outcomes);
      places := places + [|log|];
      if r.CutOff? {
        ghost var e1, log1 := w.env, w.log;
        outcomes := ForceCut(w, terms, roots, n, r.raisedKill, outcomes);
        TrailTrans(old(w.env), old(w.log), e1, log1, w.env, w.log);
        AboutTrans(old(w.log), log1, w.log, RootSerials(roots));
        CourseMade(log1, w.log, |old(w.log)|, old(w.env.now), e1.now, terms, roots, n + 1, n, places);
        c := Course(old(w.env.now), n, places, |log1|, e1.now);
        TrailShown(old(w.env), old(w.log), w.env, w.log);
        CourseHeard(w.env, old(w.log), w.log, terms, roots, c);
        return;
      }
      OneMoreLine(w.env, old(w.env.now), old(w.log), w.log, terms, roots, n, places, outcomes, r.outcome);
      outcomes := outcomes + [Line(roots[n], r.outcome)];
    }
    c := Course(old(w.env.now), |roots|, places, |w.log|, w.env.now);
    BatchDone(w.env, old(w.env.now), old(w.log), w.log, terms, roots, places, outcomes);
    TrailShown(old(w.env), old(w.log), w.env, w.log);
    CourseHeard(w.env, old(w.log), w.log, terms, roots, c);
  }

  /** The ladder is cut at root `n`: what it has reported so far, and the force of the rest. */
  method ForceCut(w: World, terms: Terms, roots: seq<Root>, n: nat, raisedKill: bool, done: seq<Report>)
    returns (outcomes: seq<Report>)
    requires n < |roots| && Distinct(RootSerials(roots)) && AllFresh(w.log, roots, n + 1)
    requires raisedKill == (roots[n].serial in Accepted(w.log))
    requires LineRoots(done) == roots[..n] && LinesOk(w.env, w.log, terms, None, done)
    modifies w
    ensures w.Ran() && w.env.now <= old(w.env.now) + LongestForce(roots[n..])
    ensures Reported(outcomes, roots, n) && LinesOk(w.env, w.log, terms, None, outcomes)
    ensures KilledAt(w.log, |old(w.log)|, roots[n..], old(w.env.now)) && About(old(w.log), w.log, RootSerials(roots))
    ensures AllShown(w.env, old(w.log), w.log) && AllKillHeard(w.env, roots[n..])
  {
    hide Later, Between, AllShown, AllKillHeard, KilledAt;
    var rest := roots[n..];
    var targets := seq(|rest|, k requires 0 <= k < |rest| => Target(rest[k], k == 0 && raisedKill));
    assert Roots(targets) == rest;
    RestMarked(w.log, roots, n, raisedKill, targets);
    var forced := ConcurrentForceSweep(w, terms, targets, None);
    assert roots[n..|roots|] == rest;
    OthersFresh(old(w.log), w.log, roots, n, |roots|);
    AboutMore(old(w.log), w.log, roots, n, |roots|);
    forall k | 0 <= k < |done|
      ensures done[k].root.serial in Accepted(old(w.log)) <==> done[k].root.serial in Accepted(w.log)
    {
      assert LineRoots(done)[k] == roots[k];
    }
    LinesStay(old(w.env), old(w.log), w.env, w.log, terms, None, done);
    AddForced(done, forced, roots, n);
    AppendLines(w.env, w.log, terms, None, done, forced);
    outcomes := done + forced;
  }

  /** The batch of a cut ladder is marked right: its first with the cut root's flag, the others not at all. */
  lemma RestMarked(log: seq<Deed>, roots: seq<Root>, n: nat, raisedKill: bool, ts: seq<Target>)
    requires n < |roots| && Distinct(RootSerials(roots)) && AllFresh(log, roots, n + 1)
    requires raisedKill == (roots[n].serial in Accepted(log)) && Roots(ts) == roots[n..]
    requires forall k :: 0 <= k < |ts| ==> ts[k].killRaised == (k == 0 && raisedKill)
    ensures Distinct(RootSerials(Roots(ts))) && forall k :: 0 <= k < |ts| ==> Marked(ts[k], log)
  {
    var serials := RootSerials(roots);
    forall i, j | 0 <= i < j < |ts| ensures RootSerials(Roots(ts))[i] != RootSerials(Roots(ts))[j] {
      assert serials[n + i] == Roots(ts)[i].serial && serials[n + j] == Roots(ts)[j].serial;
    }
    forall k | 0 <= k < |ts| ensures Marked(ts[k], log) {
      assert ts[k].root == Roots(ts)[k] == roots[n + k];
      if k > 0 {
        FreshNotAccepted(log, roots[n + k].serial);
      }
    }
  }
}
