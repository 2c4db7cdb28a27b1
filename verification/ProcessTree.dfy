/** The owned-process census and its retirement, in the `finally` block of
    scripts/goal_notice_native_acceptance.py. */
module ProcessTree {
  import opened Values

  /** A row of the process table. */
  datatype Row = Row(pid: int, parent: int)

  // ------------------------------------------------------------------------ census

  ghost predicate Closed(table: seq<Row>, pids: set<int>) {
    forall k | 0 <= k < |table| :: table[k].parent in pids ==> table[k].pid in pids
  }

  /** `owned` is the least set with the roots that is closed under "the parent is owned". */
  ghost predicate IsOwned(table: seq<Row>, roots: set<int>, owned: set<int>) {
    && roots <= owned && Closed(table, owned)
    && forall other: set<int> | roots <= other && Closed(table, other) :: owned <= other
  }

  function Pids(table: seq<Row>): set<int> {
    set k | 0 <= k < |table| :: table[k].pid
  }

  /** The `while changed` loop. One pass reads the set while it adds to it. */
  method Owned(table: seq<Row>, roots: set<int>) returns (owned: set<int>)
    ensures IsOwned(table, roots, owned)
  {
    owned := roots;
    var changed := true;
    while changed
      invariant roots <= owned
      invariant forall other: set<int> | roots <= other && Closed(table, other) :: owned <= other
      invariant !changed ==> Closed(table, owned)
      decreases Pids(table) - owned, changed
    {
      var previous := owned;
      for k := 0 to |table|
        invariant previous <= owned <= previous + Pids(table)
        invariant forall other: set<int> | roots <= other && Closed(table, other) :: owned <= other
        invariant owned == previous ==> forall j | 0 <= j < k :: table[j].parent in owned ==> table[j].pid in owned
      {
        if table[k].parent in owned {
          assert table[k].pid in Pids(table);
          owned := owned + {table[k].pid};
        }
      }
      changed := previous != owned;
      if changed {
        assert !(owned <= previous);
        ghost var added :| added in owned && added !in previous;
        assert added in Pids(table) - previous && added !in Pids(table) - owned;
      }
    }
  }

  /** The order of the table does not matter, nor do repeated rows. */
  lemma OwnedOrderFree(table: seq<Row>, other: seq<Row>, roots: set<int>, owned: set<int>, owned': set<int>)
    requires forall row :: row in table <==> row in other
    requires IsOwned(table, roots, owned) && IsOwned(other, roots, owned')
    ensures owned == owned'
  {
    forall k | 0 <= k < |other| ensures other[k].parent in owned ==> other[k].pid in owned {
      assert other[k] in table;
    }
    forall k | 0 <= k < |table| ensures table[k].parent in owned' ==> table[k].pid in owned' {
      assert table[k] in other;
    }
  }

  /** `pid` is a root, or the table leads from it to one in `n` steps at most. */
  ghost predicate Descends(table: seq<Row>, roots: set<int>, pid: int, n: nat)
    decreases n
  {
    pid in roots || (n > 0 && exists k | 0 <= k < |table| :: table[k].pid == pid && Descends(table, roots, table[k].parent, n - 1))
  }

  ghost predicate Descendant(table: seq<Row>, roots: set<int>, pid: int) {
    exists n: nat :: Descends(table, roots, pid, n)
  }

  lemma {:induction false} DescendantIsOwned(table: seq<Row>, roots: set<int>, owned: set<int>, pid: int, n: nat)
    requires IsOwned(table, roots, owned) && Descends(table, roots, pid, n)
    ensures pid in owned
    decreases n
  {
    if pid !in roots {
      var k :| 0 <= k < |table| && table[k].pid == pid && Descends(table, roots, table[k].parent, n - 1);
      DescendantIsOwned(table, roots, owned, table[k].parent, n - 1);
    }
  }

  /** The owned processes are the roots and their descendants, and no others. */
  lemma OwnedIffDescendant(table: seq<Row>, roots: set<int>, owned: set<int>)
    requires IsOwned(table, roots, owned)
    ensures forall pid :: pid in owned <==> Descendant(table, roots, pid)
  {
    var reached := set pid | pid in owned && Descendant(table, roots, pid);
    forall pid | pid in roots ensures pid in reached {
      assert Descends(table, roots, pid, 0);
    }
    forall k | 0 <= k < |table| && table[k].parent in reached ensures table[k].pid in reached {
      var n: nat :| Descends(table, roots, table[k].parent, n);
      assert Descends(table, roots, table[k].pid, n + 1);
    }
    assert Closed(table, reached);
    forall pid | Descendant(table, roots, pid) ensures pid in owned {
      var n: nat :| Descends(table, roots, pid, n);
      DescendantIsOwned(table, roots, owned, pid, n);
    }
  }

  // -------------------------------------------------------------------- retirement

  type Identity = int

  datatype Event =
    | Identified(pid: int, identity: Result<Identity>)
    | StateRead(pid: int, zombie: Result<bool>)
    | Signalled(pid: int)

  /** The process table of a live host: processes come and go between any two readings. */
  class Host {
    const identity: (seq<Event>, int) -> Result<Identity>
    const zombie: (seq<Event>, int) -> Result<bool>
    const elapsed: seq<Event> -> real
    var trace: seq<Event>
    var now: real

    constructor (identity: (seq<Event>, int) -> Result<Identity>, zombie: (seq<Event>, int) -> Result<bool>,
                 elapsed: seq<Event> -> real, start: real)
      ensures this.identity == identity && this.zombie == zombie && trace == [] && now == start
    {
      this.identity, this.zombie, this.elapsed := identity, zombie, elapsed;
      trace, now := [], start;
    }

    /** The identity of a process, if it has one. */
    method Identify(pid: int) returns (r: Result<Identity>)
      modifies this`trace
      ensures r == identity(old(trace), pid) && trace == old(trace) + [Identified(pid, r)]
    {
      r := identity(trace, pid);
      trace := trace + [Identified(pid, r)];
    }

    method ReadState(pid: int) returns (r: Result<bool>)
      modifies this`trace
      ensures r == zombie(old(trace), pid) && trace == old(trace) + [StateRead(pid, r)]
    {
      r := zombie(trace, pid);
      trace := trace + [StateRead(pid, r)];
    }

    /** A termination signal; a refusal is passed over. */
    method Terminate(pid: int)
      modifies this`trace
      ensures trace == old(trace) + [Signalled(pid)]
    {
      trace := trace + [Signalled(pid)];
    }

    method Sleep()
      modifies this`now
      ensures now >= old(now) + 0.02
    {
      var more := elapsed(trace);
      now := now + 0.02 + if more < 0.0 then 0.0 else more;
    }
  }

  lemma Inhabited(pids: set<int>)
    ensures pids == {} || exists pid :: pid in pids
  {
    if forall pid :: pid !in pids {
      assert pids == {};
    }
  }

  ghost predicate NoSignal(events: seq<Event>) {
    forall k | 0 <= k < |events| :: !events[k].Signalled?
  }

  /** The identities that are read are those of `pids`, and no process is read twice. */
  ghost predicate ReadsOnce(events: seq<Event>, pids: set<int>) {
    && (forall k | 0 <= k < |events| && events[k].Identified? :: events[k].pid in pids)
    && (forall j, k | 0 <= j < k < |events| && events[j].Identified? && events[k].Identified? :: events[j].pid != events[k].pid)
  }

  /** The identity of `pid` was read, and recorded if there was one. */
  ghost predicate Recorded(events: seq<Event>, identities: map<int, Identity>, pid: int) {
    exists k | 0 <= k < |events| ::
      && events[k].Identified? && events[k].pid == pid
      && if events[k].identity.Ok? then pid in identities && identities[pid] == events[k].identity.value else pid !in identities
  }

  lemma StillRecorded(events: seq<Event>, more: seq<Event>, identities: map<int, Identity>, identities': map<int, Identity>, pid: int)
    requires Recorded(events, identities, pid)
    requires pid in identities <==> pid in identities'
    requires pid in identities ==> identities[pid] == identities'[pid]
    ensures Recorded(events + more, identities', pid)
  {
    var k :| 0 <= k < |events| && events[k].Identified? && events[k].pid == pid
      && if events[k].identity.Ok? then pid in identities && identities[pid] == events[k].identity.value else pid !in identities;
    assert (events + more)[k] == events[k];
  }

  /** Every owned process is looked up once, and those with an identity are recorded. */
  ghost predicate LookedUp(events: seq<Event>, owned: set<int>, identities: map<int, Identity>) {
    && NoSignal(events) && ReadsOnce(events, owned)
    && identities.Keys <= owned && forall pid | pid in owned :: Recorded(events, identities, pid)
  }

  /** The identities of the owned processes; exactly those that cannot be read are left out. */
  method Identities(h: Host, owned: set<int>) returns (identities: map<int, Identity>, ghost events: seq<Event>)
    modifies h`trace
    ensures h.trace == old(h.trace) + events
    ensures LookedUp(events, owned, identities)
  {
    identities, events := map[], [];
    var todo := owned;
    while todo != {}
      invariant todo <= owned && identities.Keys <= owned - todo
      invariant h.trace == old(h.trace) + events
      invariant LookedUp(events, owned - todo, identities)
      decreases todo
    {
      Inhabited(todo);
      var pid :| pid in todo;
      ghost var known, done := identities, owned - todo;
      todo := todo - {pid};
      var r := h.Identify(pid);
      if r.Ok? {
        identities := identities[pid := r.value];
      }
      forall p | p in done ensures Recorded(events + [Identified(pid, r)], identities, p) {
        StillRecorded(events, [Identified(pid, r)], known, identities, p);
      }
      assert (events + [Identified(pid, r)])[|events|] == Identified(pid, r);
      assert Recorded(events + [Identified(pid, r)], identities, pid);
      assert owned - todo == done + {pid};
      events := events + [Identified(pid, r)];
    }
    assert owned - todo == owned;
  }

  /** Every signal goes to a recorded process, right after its identity was read again and
      still matched. */
  ghost predicate SignalsMatch(events: seq<Event>, identities: map<int, Identity>) {
    forall k | 0 <= k < |events| && events[k].Signalled? ::
      && events[k].pid in identities
      && k > 0 && events[k - 1] == Identified(events[k].pid, Ok(identities[events[k].pid]))
  }

  /** The identity of `pid` was read, and if it still matched a signal followed. */
  ghost predicate Handled(events: seq<Event>, pid: int, identity: Identity) {
    exists k | 0 <= k < |events| ::
      && events[k].Identified? && events[k].pid == pid
      && (events[k].identity == Ok(identity) ==> k + 1 < |events| && events[k + 1] == Signalled(pid))
  }

  lemma StillHandled(events: seq<Event>, more: seq<Event>, pid: int, identity: Identity)
    requires Handled(events, pid, identity)
    ensures Handled(events + more, pid, identity)
  {
    var k :| 0 <= k < |events|
      && events[k].Identified? && events[k].pid == pid
      && (events[k].identity == Ok(identity) ==> k + 1 < |events| && events[k + 1] == Signalled(pid));
    assert (events + more)[k] == events[k];
    assert k + 1 < |events| ==> (events + more)[k + 1] == events[k + 1];
  }

  /** Each of `pids` is read again, once, and signalled exactly if it is still the same. */
  ghost predicate SignalledIfSame(events: seq<Event>, identities: map<int, Identity>, pids: set<int>) {
    && ReadsOnce(events, pids) && SignalsMatch(events, identities)
    && forall pid | pid in pids :: pid in identities && Handled(events, pid, identities[pid])
  }

  /** A signal to each recorded process that is still the same one, and to no other. */
  method Signal(h: Host, identities: map<int, Identity>) returns (ghost events: seq<Event>)
    modifies h`trace
    ensures h.trace == old(h.trace) + events
    ensures SignalledIfSame(events, identities, identities.Keys)
  {
    events := [];
    var todo := identities.Keys;
    while todo != {}
      invariant todo <= identities.Keys
      invariant h.trace == old(h.trace) + events
      invariant SignalledIfSame(events, identities, identities.Keys - todo)
      decreases todo
    {
      Inhabited(todo);
      var pid :| pid in todo;
      ghost var done := identities.Keys - todo;
      todo := todo - {pid};
      var r := h.Identify(pid);
      ghost var more := [Identified(pid, r)];
      if r == Ok(identities[pid]) {
        h.Terminate(pid);
        more := more + [Signalled(pid)];
      }
      OneMoreSignal(events, identities, done, pid, r, more);
      assert identities.Keys - todo == done + {pid};
      events := events + more;
    }
    assert identities.Keys - todo == identities.Keys;
  }

  lemma OneMoreSignal(events: seq<Event>, identities: map<int, Identity>, done: set<int>, pid: int, r: Result<Identity>,
                      more: seq<Event>)
    requires SignalledIfSame(events, identities, done) && pid in identities && pid !in done
    requires more == [Identified(pid, r)] + if r == Ok(identities[pid]) then [Signalled(pid)] else []
    ensures SignalledIfSame(events + more, identities, done + {pid})
  {
    var all := events + more;
    assert all[|events|] == Identified(pid, r);
    assert r == Ok(identities[pid]) ==> all[|events| + 1] == Signalled(pid);
    assert Handled(all, pid, identities[pid]);
    forall p | p in done ensures Handled(all, p, identities[p]) {
      StillHandled(events, more, p, identities[p]);
    }
  }

  // ------------------------------------------------------------------------ the sweeps

  /** `pid` was seen gone, as a zombie, or as another process. */
  ghost predicate SeenTerminal(events: seq<Event>, pid: int, identity: Identity) {
    exists k | 0 <= k < |events| ::
      && events[k].StateRead? && events[k].pid == pid
      && (|| events[k].zombie != Ok(false)
          || (k + 1 < |events| && events[k + 1].Identified? && events[k + 1].pid == pid && events[k + 1].identity != Ok(identity)))
  }

  lemma StillSeenTerminal(events: seq<Event>, more: seq<Event>, pid: int, identity: Identity)
    requires SeenTerminal(events, pid, identity)
    ensures SeenTerminal(events + more, pid, identity)
  {
    var k :| 0 <= k < |events|
      && events[k].StateRead? && events[k].pid == pid
      && (|| events[k].zombie != Ok(false)
          || (k + 1 < |events| && events[k + 1].Identified? && events[k + 1].pid == pid && events[k + 1].identity != Ok(identity)));
    assert (events + more)[k] == events[k];
    assert k + 1 < |events| ==> (events + more)[k + 1] == events[k + 1];
  }

  /** `pid` was seen running, as the same process. */
  ghost predicate SeenRunning(events: seq<Event>, pid: int, identity: Identity) {
    exists k | 0 <= k < |events| - 1 :: events[k] == StateRead(pid, Ok(false)) && events[k + 1] == Identified(pid, Ok(identity))
  }

  lemma StillSeenRunning(events: seq<Event>, more: seq<Event>, pid: int, identity: Identity)
    requires SeenRunning(events, pid, identity)
    ensures SeenRunning(events + more, pid, identity)
  {
    var k :| 0 <= k < |events| - 1 && events[k] == StateRead(pid, Ok(false)) && events[k + 1] == Identified(pid, Ok(identity));
    assert (events + more)[k] == events[k] && (events + more)[k + 1] == events[k + 1];
  }

  /** What was seen of a process. */
  ghost predicate Seen(events: seq<Event>, pid: int, identity: Identity, running: bool) {
    if running then SeenRunning(events, pid, identity) else SeenTerminal(events, pid, identity)
  }

  /** One sweep: the state of each of `pids` is read once, and what remains are those that run. */
  datatype Sweep = Sweep(events: seq<Event>, remaining: set<int>) {
    ghost predicate Over(identities: map<int, Identity>, pids: set<int>) {
      && NoSignal(events) && StatesOnce(events, pids) && remaining <= pids
      && forall pid | pid in pids :: pid in identities && Seen(events, pid, identities[pid], pid in remaining)
    }
  }

  ghost predicate StatesOnce(events: seq<Event>, pids: set<int>) {
    && (forall k | 0 <= k < |events| && events[k].StateRead? :: events[k].pid in pids)
    && (forall j, k | 0 <= j < k < |events| && events[j].StateRead? && events[k].StateRead? :: events[j].pid != events[k].pid)
  }

  lemma OneMoreSeen(sweep: Sweep, identities: map<int, Identity>, done: set<int>, pid: int, more: seq<Event>, running: bool)
    requires sweep.Over(identities, done) && pid in identities && pid !in done
    requires |more| > 0 && NoSignal(more) && Seen(more, pid, identities[pid], running)
    requires more[0].StateRead? && more[0].pid == pid && forall k | 0 < k < |more| :: !more[k].StateRead?
    ensures Sweep(sweep.events + more, if running then sweep.remaining + {pid} else sweep.remaining).Over(identities, done + {pid})
  {
    var remaining := if running then sweep.remaining + {pid} else sweep.remaining;
    forall p | p in done ensures Seen(sweep.events + more, p, identities[p], p in remaining) {
      if p in remaining {
        StillSeenRunning(sweep.events, more, p, identities[p]);
      } else {
        StillSeenTerminal(sweep.events, more, p, identities[p]);
      }
    }
    SeenAfter(sweep.events, more, pid, identities[pid], running);
  }

  lemma SeenAfter(before: seq<Event>, events: seq<Event>, pid: int, identity: Identity, running: bool)
    requires Seen(events, pid, identity, running)
    ensures Seen(before + events, pid, identity, running)
  {
    var all := before + events;
    if running {
      var k :| 0 <= k < |events| - 1 && events[k] == StateRead(pid, Ok(false)) && events[k + 1] == Identified(pid, Ok(identity));
      assert all[|before| + k] == events[k] && all[|before| + k + 1] == events[k + 1];
    } else {
      var k :| 0 <= k < |events|
        && events[k].StateRead? && events[k].pid == pid
        && (|| events[k].zombie != Ok(false)
            || (k + 1 < |events| && events[k + 1].Identified? && events[k + 1].pid == pid && events[k + 1].identity != Ok(identity)));
      assert all[|before| + k] == events[k];
      assert k + 1 < |events| ==> all[|before| + k + 1] == events[k + 1];
    }
  }

  /** One look at a process: whether it still runs. */
  method StillRuns(h: Host, pid: int, identity: Identity) returns (running: bool, ghost events: seq<Event>)
    modifies h`trace
    ensures h.trace == old(h.trace) + events
    ensures |events| > 0 && NoSignal(events) && Seen(events, pid, identity, running)
    ensures events[0].StateRead? && events[0].pid == pid && forall k | 0 < k < |events| :: !events[k].StateRead?
  {
    var state := h.ReadState(pid);
    events := [StateRead(pid, state)];
    running := false;
    if state == Ok(false) {
      var r := h.Identify(pid);
      events := events + [Identified(pid, r)];
      assert events[0] == StateRead(pid, state) && events[1] == Identified(pid, r);
      running := r == Ok(identity);
    } else {
      assert events[0] == StateRead(pid, state);
    }
  }

  /** One sweep over the recorded processes: those that still run. */
  method Remaining(h: Host, identities: map<int, Identity>) returns (remaining: set<int>, ghost sweep: Sweep)
    modifies h`trace
    ensures h.trace == old(h.trace) + sweep.events
    ensures sweep.remaining == remaining && sweep.Over(identities, identities.Keys)
  {
    remaining := {};
    sweep := Sweep([], {});
    var todo := identities.Keys;
    while todo != {}
      invariant todo <= identities.Keys
      invariant h.trace == old(h.trace) + sweep.events
      invariant sweep.remaining == remaining && sweep.Over(identities, identities.Keys - todo)
      decreases todo
    {
      Inhabited(todo);
      var pid :| pid in todo;
      ghost var done := identities.Keys - todo;
      todo := todo - {pid};
      var running;
      ghost var more;
      running, more := StillRuns(h, pid, identities[pid]);
      OneMoreSeen(sweep, identities, done, pid, more, running);
      assert identities.Keys - todo == done + {pid};
      if running {
        remaining := remaining + {pid};
      }
      sweep := Sweep(sweep.events + more, remaining);
    }
    assert identities.Keys - todo == identities.Keys;
  }

  ghost function Flat(sweeps: seq<Sweep>): seq<Event> {
    if sweeps == [] then [] else Flat(sweeps[..|sweeps| - 1]) + sweeps[|sweeps| - 1].events
  }

  /** Each sweep is over all recorded processes, and all but the last left some. */
  ghost predicate Sweeping(sweeps: seq<Sweep>, identities: map<int, Identity>) {
    sweeps != [] ==>
      && var before, last := sweeps[..|sweeps| - 1], sweeps[|sweeps| - 1];
      && Sweeping(before, identities) && (before != [] ==> before[|before| - 1].remaining != {})
      && last.Over(identities, identities.Keys)
  }

  ghost predicate Sweeps(sweeps: seq<Sweep>, identities: map<int, Identity>, remaining: set<int>) {
    sweeps != [] && sweeps[|sweeps| - 1].remaining == remaining && Sweeping(sweeps, identities)
  }

  lemma SweepsOn(sweeps: seq<Sweep>, sweep: Sweep, identities: map<int, Identity>)
    requires Sweeping(sweeps, identities) && (sweeps != [] ==> sweeps[|sweeps| - 1].remaining != {})
    requires sweep.Over(identities, identities.Keys)
    ensures Sweeps(sweeps + [sweep], identities, sweep.remaining)
    ensures Flat(sweeps + [sweep]) == Flat(sweeps) + sweep.events
  {
    var all := sweeps + [sweep];
    assert all[..|all| - 1] == sweeps && all[|all| - 1] == sweep;
  }

  lemma Regroup(a: seq<Event>, b: seq<Event>, c: seq<Event>)
    ensures a + b + c == a + (b + c)
  {
  }

  /** A sleep, and another sweep. */
  method SweepAgain(h: Host, identities: map<int, Identity>, ghost start: seq<Event>, ghost sweeps: seq<Sweep>)
    returns (remaining: set<int>, ghost sweeps': seq<Sweep>)
    requires h.trace == start + Flat(sweeps) && sweeps != []
    requires Sweeps(sweeps, identities, sweeps[|sweeps| - 1].remaining) && sweeps[|sweeps| - 1].remaining != {}
    modifies h
    ensures h.trace == start + Flat(sweeps') && |sweeps'| == |sweeps| + 1
    ensures Sweeps(sweeps', identities, remaining)
    ensures h.now >= old(h.now) + 0.02
  {
    h.Sleep();
    ghost var sweep;
    remaining, sweep := Remaining(h, identities);
    SweepsOn(sweeps, sweep, identities);
    sweeps' := sweeps + [sweep];
    Regroup(start, Flat(sweeps), sweep.events);
  }

  /** The sweeps: until nothing remains or five seconds are over. */
  method AwaitEnd(h: Host, identities: map<int, Identity>) returns (remaining: set<int>, ghost sweeps: seq<Sweep>)
    modifies h
    ensures h.trace == old(h.trace) + Flat(sweeps)
    ensures Sweeps(sweeps, identities, remaining) && |sweeps| <= 251
    ensures remaining == {} || h.now >= old(h.now) + 5.0
  {
    var end := h.now + 5.0;
    ghost var start, slept, least := h.now, 0, 0.0;
    ghost var sweep;
    remaining, sweep := Remaining(h, identities);
    sweeps := [] + [sweep];
    SweepsOn([], sweep, identities);
    while remaining != {} && h.now < end
      invariant h.trace == old(h.trace) + Flat(sweeps)
      invariant Sweeps(sweeps, identities, remaining)
      invariant |sweeps| == slept + 1 && least * 50.0 == slept as real && h.now >= start + least
      invariant slept > 0 ==> least - 0.02 < 5.0
      decreases (end - h.now) * 50.0
    {
      slept, least := slept + 1, least + 0.02;
      remaining, sweeps := SweepAgain(h, identities, old(h.trace), sweeps);
    }
  }

  /** The retirement. First every owned process is looked up; then each one that is recorded is
      read again, and signalled exactly if it is still the same; and what the last sweep leaves
      are exactly those that it saw running. */
  method RetireOwned(h: Host, table: seq<Row>, roots: set<int>)
    returns (owned: set<int>, identities: map<int, Identity>, remaining: set<int>,
             ghost read: seq<Event>, ghost signals: seq<Event>, ghost sweeps: seq<Sweep>)
    modifies h
    ensures h.trace == old(h.trace) + read + signals + Flat(sweeps)
    ensures IsOwned(table, roots, owned)
    ensures LookedUp(read, owned, identities)
    ensures SignalledIfSame(signals, identities, identities.Keys)
    ensures Sweeps(sweeps, identities, remaining) && |sweeps| <= 251
    ensures remaining == {} || h.now >= old(h.now) + 5.0
  {
    owned := Owned(table, roots);
    identities, read := Identities(h, owned);
    signals := Signal(h, identities);
    remaining, sweeps := AwaitEnd(h, identities);
  }

  lemma OneRead(events: seq<Event>, pids: set<int>, j: nat, k: nat)
    requires ReadsOnce(events, pids) && j < |events| && k < |events|
    requires events[j].Identified? && events[k].Identified? && events[j].pid == events[k].pid
    ensures j == k
  {
  }

  /** What a signal takes: the process is owned, its identity was read when it was recorded, and
      it was read again, later and after all the records, when it was the same; and there is no
      second signal to it. */
  lemma SignalledTwiceRead(owned: set<int>, identities: map<int, Identity>, read: seq<Event>, signals: seq<Event>, k: nat)
    requires LookedUp(read, owned, identities) && SignalledIfSame(signals, identities, identities.Keys)
    requires k < |signals| && signals[k].Signalled?
    ensures var pid := signals[k].pid;
      && pid in owned && pid in identities
      && (exists i | 0 <= i < |read| :: read[i] == Identified(pid, Ok(identities[pid])))
      && k > 0 && signals[k - 1] == Identified(pid, Ok(identities[pid]))
      && forall j | 0 <= j < |signals| && signals[j] == Signalled(pid) :: j == k
  {
    var pid := signals[k].pid;
    assert Recorded(read, identities, pid);
    var i :| 0 <= i < |read| && read[i].Identified? && read[i].pid == pid
      && if read[i].identity.Ok? then pid in identities && identities[pid] == read[i].identity.value else pid !in identities;
    assert read[i] == Identified(pid, Ok(identities[pid]));
    forall j | 0 <= j < |signals| && signals[j] == Signalled(pid) ensures j == k {
      OneRead(signals, identities.Keys, j - 1, k - 1);
    }
  }
}
