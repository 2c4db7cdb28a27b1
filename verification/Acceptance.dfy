/** `run` of scripts/goal_supervision_real_acceptance.py, for every environment. */
module Acceptance {
  import Word
  import opened Values
  import opened Native
  import opened Cleanup
  import opened CleanupProperties
  import opened Receipts
  import opened AcceptanceSetup
  import opened AcceptancePolling
  import opened AcceptanceOperator

  function Max(a: int, b: int): int {
    if a < b then b else a
  }

  /** When the loops must stop. */
  function EndOf(begun: real, options: Options): (end: real)
    ensures options.seconds >= 1 ==> end - begun == options.seconds as real
    ensures options.seconds < 1 ==> end - begun == 1.0
  {
    begun + Max(1, options.seconds) as real
  }

  ghost predicate CleansUp(events: seq<Event>, thread: Json) {
    forall i | 0 <= i < |events| :: CleanupCall(events[i].call, thread)
  }

  // ------------------------------------------------------------------------ history

  /** The outer loop, and the operator's turn exactly once it was left at the pause. */
  datatype WatchHistory = WatchHistory(polls: Polls, operator: Option<OperatorHistory>) {
    ghost function Trace(): seq<Event> {
      if operator.Some? then polls.Trace() + operator.value.Trace() else polls.Trace()
    }

    ghost predicate Lawful(options: Options, thread: Json, goal: Json, end: real) {
      && polls.Lawful(options, thread, end)
      && (operator.Some? <==> polls.Done())
      && (operator.Some? ==> operator.value.Lawful(options, thread, polls.First(), Index(goal, Word.CreatedAt), end))
    }

    ghost predicate Done() {
      operator.Some? && operator.value.Done()
    }

    ghost function Final(): Json {
      if operator.Some? then operator.value.Final() else Null
    }

    ghost function Waited(): nat {
      if operator.Some? then operator.value.Waited() else 0
    }

    ghost function Audited(): nat {
      if operator.Some? then operator.value.Audited() else 0
    }
  }

  /** The setup, and what follows exactly when the goal was activated. */
  datatype WorkHistory = WorkHistory(setup: SetupHistory, watch: Option<WatchHistory>) {
    ghost function Trace(): seq<Event> {
      if watch.Some? then setup.Trace() + watch.value.Trace() else setup.Trace()
    }

    ghost predicate Lawful(options: Options, end: real) {
      && setup.Lawful(options)
      && (watch.Some? <==> setup.Ready())
      && (watch.Some? ==> watch.value.Lawful(options, setup.Owned(), setup.Goal(), end))
    }

    ghost predicate Done() {
      watch.Some? && watch.value.Done()
    }

    ghost function Final(): Json {
      if watch.Some? then watch.value.Final() else Null
    }

    ghost function Polled(): nat {
      if watch.Some? then |watch.value.polls.rounds| else 0
    }

    ghost function Waited(): nat {
      if watch.Some? then watch.value.Waited() else 0
    }

    ghost function Audited(): nat {
      if watch.Some? then watch.value.Audited() else 0
    }
  }

  /** Everything that a run has asked for and read off the clock, phase by phase. */
  datatype RunHistory = RunHistory(begun: real, work: WorkHistory, cleanup: seq<Event>) {
    ghost function Trace(): seq<Event> {
      Worked() + cleanup
    }

    ghost function Worked(): seq<Event> {
      [Shown(begun)] + work.Trace()
    }

    /** Each phase makes its own calls only, on the started thread. It stops exactly where a
        call failed, a reading was refused or time was up, and only then; and the next one
        follows exactly when it has done its work. */
    ghost predicate Lawful(options: Options) {
      work.Lawful(options, EndOf(begun, options)) && CleansUp(cleanup, work.setup.Owned())
    }

    ghost function Thread(): Option<Json> {
      work.setup.Thread()
    }

    /** The usage of the last status read. */
    ghost function UsedTokens(): Json {
      Index(work.Final(), Word.UsedTokens).GetOr(Null)
    }

    /** How often the three loops have gone round. */
    ghost function Rounds(): nat {
      work.Polled() + work.Waited() + work.Audited()
    }
  }

  // -------------------------------------------------------------------- the methods

  /** The loops begin at `polling`, `replying` and `auditing`. */
  method Watch(w: World, options: Options, thread: Json, goal: Json, end: real)
    returns (r: Result<Json>, ghost h: WatchHistory, ghost polled: real, ghost replying: real, ghost auditing: real)
    requires w.Valid()
    modifies w
    ensures w.trace == old(w.trace) + h.Trace() && w.Valid()
    ensures h.Lawful(options, thread, goal, end)
    ensures if r.Ok? then h.Done() && r == Index(h.Final(), Word.UsedTokens) else !h.Done()
    ensures LoopTimed(old(w.Now()), polled, end, |h.polls.rounds|) && polled <= replying
    ensures LoopTimed(replying, auditing, end, h.Waited()) && LoopTimed(auditing, w.Now(), end, h.Audited())
  {
    var first, polls := Poll(w, options, thread, end);
    h := WatchHistory(polls, None);
    polled, replying, auditing := w.Now(), w.Now(), w.Now();
    if first.Ok? {
      ghost var operator;
      r, operator, replying, auditing := Operate(w, options, thread, first.value, goal, end);
      h := WatchHistory(polls, Some(operator));
      Regroup(old(w.trace), polls.Trace(), operator.Trace());
    } else {
      r := Err(first.error);
    }
  }

  lemma RoundsInTime(begun: real, options: Options, from: real, polled: real, replying: real, auditing: real, over: real,
                     l: nat, m: nat, n: nat)
    requires begun <= from && polled <= replying
    requires LoopTimed(from, polled, EndOf(begun, options), l)
    requires LoopTimed(replying, auditing, EndOf(begun, options), m) && LoopTimed(auditing, over, EndOf(begun, options), n)
    ensures l + m + n <= 5 * Max(1, options.seconds) + 2
  {
    ThreeLoops(from, polled, replying, auditing, auditing, over, EndOf(begun, options), l, m, n);
    SlackIsFifths(l + m + n);
  }

  /** The body of the `try`; the result is the usage reported. The loops begin at `polling`,
      `replying` and `auditing`. */
  method Work(w: World, options: Options, end: real)
    returns (r: Result<Json>, thread: Option<Json>, dispatched: bool, ghost h: WorkHistory,
             ghost polling: real, ghost polled: real, ghost replying: real, ghost auditing: real)
    requires w.Valid()
    modifies w
    ensures w.trace == old(w.trace) + h.Trace() && w.Valid()
    ensures h.Lawful(options, end)
    ensures thread == h.setup.Thread() && dispatched == h.setup.Activated()
    ensures if r.Ok? then h.Done() && r == Index(h.Final(), Word.UsedTokens) else !h.Done()
    ensures old(w.Now()) <= polling && LoopTimed(polling, polled, end, h.Polled()) && polled <= replying
    ensures LoopTimed(replying, auditing, end, h.Waited()) && LoopTimed(auditing, w.Now(), end, h.Audited())
  {
    ghost var setup;
    var ready;
    ready, thread, dispatched, setup := Setup(w, options);
    h := WorkHistory(setup, None);
    polling, polled, replying, auditing := w.Now(), w.Now(), w.Now(), w.Now();
    if ready.Ok? {
      ghost var watch;
      r, watch, polled, replying, auditing := Watch(w, options, thread.value, ready.value, end);
      h := WorkHistory(setup, Some(watch));
      Regroup(old(w.trace), setup.Trace(), watch.Trace());
    } else {
      r := Err(ready.error);
    }
  }

  lemma WorkedFrom(begun: real, work: WorkHistory, options: Options)
    requires work.Lawful(options, EndOf(begun, options))
    ensures var h := RunHistory(begun, work, []);
      h.Lawful(options) && [] + [Shown(begun)] + work.Trace() == h.Worked()
  {
  }

  /** The reading of the clock, and the body of the `try`. */
  method Attempt(w: World, options: Options)
    returns (r: Result<Json>, thread: Option<Json>, dispatched: bool, ghost begun: real, ghost work: WorkHistory)
    requires w.Valid() && w.trace == []
    modifies w
    ensures w.trace == [] + [Shown(begun)] + work.Trace() && w.Valid()
    ensures work.Lawful(options, EndOf(begun, options))
    ensures thread == work.setup.Thread() && dispatched == work.setup.Activated()
    ensures if r.Ok? then work.Done() && r == Index(work.Final(), Word.UsedTokens) else !work.Done()
    ensures work.Polled() + work.Waited() + work.Audited() <= 5 * Max(1, options.seconds) + 2
  {
    var time := w.ReadClock();
    begun := time;
    ghost var polling, polled, replying, auditing;
    r, thread, dispatched, work, polling, polled, replying, auditing := Work(w, options, EndOf(time, options));
    RoundsInTime(begun, options, polling, polled, replying, auditing, w.Now(), work.Polled(), work.Waited(), work.Audited());
  }

  lemma TailCalls(before: seq<Event>, after: seq<Event>, thread: Json)
    requires Continues(before, after, thread)
    ensures before + after[|before|..] == after && CleansUp(after[|before|..], thread)
  {
    var tail := after[|before|..];
    assert forall i | 0 <= i < |tail| :: tail[i] == after[|before| + i];
  }

  lemma WithCleanup(h: RunHistory, options: Options, thread: Json, cleanup: seq<Event>)
    requires h.Lawful(options) && h.Thread() == Some(thread) && CleansUp(cleanup, thread)
    ensures var h' := RunHistory(h.begun, h.work, cleanup);
      h'.Lawful(options) && h'.Trace() == h.Worked() + cleanup
  {
  }

  datatype RunResult = RunResult(pass: bool, dispatched: bool, thread: Option<Json>,
                                 cleanup: Option<CleanupProof>, usedTokens: Option<Json>)

  /** The `finally` block. A thread whose identity is an empty value is not cleaned up. */
  method CleanUp(w: World, options: Options, thread: Option<Json>, ghost h: RunHistory)
    returns (proof: Option<CleanupProof>, ghost h': RunHistory)
    requires w.Valid() && w.trace == h.Worked() && h.Lawful(options) && h.cleanup == [] && thread == h.Thread()
    modifies w
    ensures w.Valid() && w.trace == h'.Trace() && h'.Lawful(options) && h' == h.(cleanup := h'.cleanup)
    ensures proof.Some? <==> thread.Some? && Truthy(thread.value)
    ensures if proof.Some? then (w.trace, proof.value) == Cleaned(w.server, h.Worked(), thread.value) else h'.cleanup == []
  {
    if thread.Some? && Truthy(thread.value) {
      CleanedContinues(w.server, w.trace, thread.value);
      var p := Cleanup.Cleanup(w, thread.value);
      proof := Some(p);
      TailCalls(h.Worked(), w.trace, thread.value);
      WithCleanup(h, options, thread.value, w.trace[|h.Worked()|..]);
      h' := RunHistory(h.begun, h.work, w.trace[|h.Worked()|..]);
    } else {
      proof, h' := None, h;
      assert h.Trace() == h.Worked();
    }
  }

  /** `run`. The history `h` is lawful, which leaves it no choice: every phase goes on and
      stops as its readings say. The run passes exactly when every phase has done its work
      and the cleanup, if there is a thread to clean up, is verified. A thread whose identity
      is an empty value is none, and then `cleanup` is `None`, which the script reports as
      verified. */
  method Run(w: World, options: Options) returns (result: RunResult, ghost h: RunHistory)
    requires w.Valid() && w.trace == []
    modifies w
    ensures w.trace == h.Trace() && w.Valid() && h.Lawful(options)
    ensures result.thread == h.Thread() && result.dispatched == h.work.setup.Activated()
    ensures result.cleanup.Some? <==> result.thread.Some? && Truthy(result.thread.value)
    ensures if result.cleanup.Some? then (w.trace, result.cleanup.value) == Cleaned(w.server, h.Worked(), result.thread.value)
            else h.cleanup == []
    ensures result.pass <==> h.work.Done() && (result.cleanup.Some? ==> result.cleanup.value.Verified())
    ensures result.usedTokens == if h.work.Done() then Some(h.UsedTokens()) else None
    ensures h.Rounds() <= 5 * Max(1, options.seconds) + 2
  {
    var used, thread, dispatched, proof;
    ghost var begun, work;
    used, thread, dispatched, begun, work := Attempt(w, options);
    WorkedFrom(begun, work, options);
    proof, h := CleanUp(w, options, thread, RunHistory(begun, work, []));
    result := RunResult(used.Ok? && (proof.Some? ==> proof.value.Verified()), dispatched, thread, proof,
                        if used.Ok? then Some(used.value) else None);
  }
}
