/** The entries of the two registry maps and what one locked access does to an entry. */
module Registry {
  import opened Base

  /** One registry entry. `inc` is the incarnation whose status plane, lane and task the entry holds, `serial` its
      registration sequence, `abort` the incarnation whose task the stored abort handle ends, `killDue` the
      earliest declared deadline in nanoseconds since the epoch, 0 for none. */
  datatype Entry = Entry(inc: nat, serial: nat, isRoot: bool, abort: Option<nat>, killDue: nat, grace: nat)

  function Fresh(inc: nat, serial: nat, isRoot: bool, grace: nat): Entry { Entry(inc, serial, isRoot, None, 0, grace) }

  /** Nanoseconds since the epoch in 64 bits, at least 1. */
  function KillClock(now: nat): nat { Max(1, Min(now, U64_MAX)) }

  /** The deadline a raiser asks for: its window, or the entry's grace, after the kill clock it read. */
  function AskedDue(clock: nat, window: Option<nat>, grace: nat): nat {
    Min(clock + Min(if window.Some? then window.value else grace, U64_MAX), U64_MAX)
  }

  /** Keeps the earlier of the recorded deadline and `due`. */
  function Declare(e: Entry, due: nat): Entry {
    if e.killDue == 0 || due < e.killDue then e.(killDue := due) else e
  }

  /** The earlier of two recorded deadlines, 0 standing for none. */
  function EarlierDue(a: nat, b: nat): nat {
    if a == 0 then b else if b == 0 then a else Min(a, b)
  }

  /** `due` records exactly the deadlines `ds`: their minimum, or 0 when there are none. */
  ghost predicate Records(due: nat, ds: set<nat>) {
    && (due == 0 <==> ds == {})
    && (due != 0 ==> due in ds)
    && forall d :: d in ds ==> 1 <= due <= d
  }

  /** Declaring keeps the record exact, and reading two records gives the record of their union. */
  lemma DeclareRecords(e: Entry, ds: set<nat>, due: nat)
    requires Records(e.killDue, ds) && due >= 1
    ensures Records(Declare(e, due).killDue, ds + {due})
  {
  }

  lemma EarlierDueRecords(a: nat, as_: set<nat>, b: nat, bs: set<nat>)
    requires Records(a, as_) && Records(b, bs)
    ensures Records(EarlierDue(a, b), as_ + bs)
  {
    if a == 0 {
      assert as_ + bs == bs;
    } else if b == 0 {
      assert as_ + bs == as_;
    }
  }

  /** The removal every teardown makes: only the entry of its own registration goes. */
  function RemoveIf(m: map<nat, Entry>, k: nat, serial: nat): map<nat, Entry> {
    if k in m && m[k].serial == serial then m - {k} else m
  }

  /** The entry under `k`, changed by a locked access that found its own registration. */
  function StoreAbort(m: map<nat, Entry>, k: nat, serial: nat, task: nat): map<nat, Entry> {
    if k in m && m[k].serial == serial then m[k := m[k].(abort := Some(task))] else m
  }

  predicate HoldsSerial(m: map<nat, Entry>, k: nat, serial: nat) { k in m && m[k].serial == serial }

  /** The deadline the entry under `k` records for registration `serial`, 0 when it is not there. */
  function DueOf(m: map<nat, Entry>, k: nat, serial: nat): nat {
    if HoldsSerial(m, k, serial) then m[k].killDue else 0
  }

  predicate HoldsInc(m: map<nat, Entry>, k: nat, inc: nat) { k in m && m[k].inc == inc }

  /** From `m` to `m'` only entries of incarnation `i` come, go or change. */
  predicate LocalMap(m: map<nat, Entry>, m': map<nat, Entry>, i: nat) {
    && (forall k :: k in m && m[k].inc != i ==> k in m' && m'[k] == m[k])
    && (forall k :: k in m' && m'[k].inc != i ==> k in m && m'[k] == m[k])
  }

  /** Every access guarded by the serial or the status plane is local to the incarnation it is guarded by. */
  lemma AccessesAreLocal(m: map<nat, Entry>, k: nat, serial: nat, i: nat)
    requires HoldsSerial(m, k, serial) ==> m[k].inc == i
    ensures LocalMap(m, RemoveIf(m, k, serial), i)
    ensures LocalMap(m, StoreAbort(m, k, serial, i), i)
  {
  }
}
