/** What the cleanup does against any server, step by step, also when a call fails. */
module CleanupOrder {
  import Word
  import opened Values
  import opened Native
  import opened Cleanup
  import opened CleanupProperties

  // ------------------------------------------------ what the readings mean, field by field

  lemma ActiveIs(goal: Json)
    ensures Active(goal) == Ok(true) <==> Has(goal, Word.Status, Str(Word.Active))
    ensures Active(goal) == Ok(false) <==> NotActive(goal)
  {
  }

  /** The listing is complete, and lists these. */
  predicate Lists(reply: Result<Json>, items: seq<Json>) {
    reply.Ok? && Has(reply.value, Word.Data, Arr(items)) && Get(reply.value, Word.NextCursor) == Null
  }

  lemma TerminalsIs(reply: Result<Json>, items: seq<Json>)
    ensures Terminals(reply) == Ok(items) <==> Lists(reply, items)
  {
  }

  lemma NoneListedIs(reply: Result<Json>)
    ensures NoneListed(reply) == Ok(true) <==>
              && reply.Ok? && HasKey(reply.value, Word.Data) && !Truthy(reply.value.fields[Word.Data])
              && Get(reply.value, Word.NextCursor) == Null
  {
  }

  lemma PageOfIs(reply: Result<Json>, items: seq<Json>, next: Json)
    ensures PageOf(reply) == Ok(Page(items, next)) <==>
              reply.Ok? && Has(reply.value, Word.Data, Arr(items)) && Get(reply.value, Word.NextCursor) == next
  {
  }

  // ---------------------------------------------------------------------- the pause

  /** The goal is paused if and only if it was read active. */
  lemma PausesExactlyIfActive(srv: Server, trace: seq<Event>, thread: Json)
    ensures var reply := srv(trace, GoalGet(thread));
      var read := trace + [Did(GoalGet(thread), reply)];
      var pause := GoalPause(thread, false);
      var active := reply.Ok? && HasKey(reply.value, Word.Goal) && Has(reply.value.fields[Word.Goal], Word.Status, Str(Word.Active));
      PauseGoal(srv, trace, thread).trace == if active then read + [Did(pause, srv(read, pause))] else read
  {
  }

  // ----------------------------------------------------------- interrupts, terminations

  /** The events are answered interrupts of these turns, in order. */
  ghost predicate Interrupts(events: seq<Event>, thread: Json, ids: seq<Json>) {
    |events| == |ids| && forall k | 0 <= k < |ids| :: events[k].call == TurnInterrupt(thread, ids[k]) && events[k].reply.Ok?
  }

  /** The turn can be dealt with: it has a status, and an identity if it is in progress. */
  predicate Readable(turn: Json) {
    HasKey(turn, Word.Status) && (Has(turn, Word.Status, Str(Word.InProgress)) ==> HasKey(turn, Word.Id))
  }

  /** What stops at a turn: it cannot be read, and nothing was called for it, or its interrupt
      was called and failed. */
  ghost predicate StopsAt(turn: Json, thread: Json, tail: seq<Event>) {
    if !Readable(turn) then tail == []
    else
      && Has(turn, Word.Status, Str(Word.InProgress))
      && |tail| == 1 && tail[0].call == TurnInterrupt(thread, turn.fields[Word.Id]) && tail[0].reply.Err?
  }

  /** The turns before the first one at which it stops, if any, are all dealt with. */
  ghost predicate InterruptedUpTo(events: seq<Event>, thread: Json, turns: seq<Json>, n: nat, done: seq<Json>, passed: bool) {
    && n <= |turns| && (forall k | 0 <= k < n :: Readable(turns[k]))
    && done == RunningIds(turns[..n]) && |done| <= |events| && Interrupts(events[..|done|], thread, done)
    && if passed then n == |turns| && |events| == |done| else n < |turns| && StopsAt(turns[n], thread, events[|done|..])
  }

  lemma OneTurnMore(event: seq<Event>, events: seq<Event>, thread: Json, turns: seq<Json>, n: nat, done: seq<Json>, passed: bool)
    requires turns != [] && Readable(turns[0]) && InterruptedUpTo(events, thread, turns[1..], n, done, passed)
    requires Interrupts(event, thread, if Running(turns[0]) then [turns[0].fields[Word.Id]] else [])
    ensures InterruptedUpTo(event + events, thread, turns, n + 1,
                            (if Running(turns[0]) then [turns[0].fields[Word.Id]] else []) + done, passed)
  {
    var rest := turns[1..];
    var ids := if Running(turns[0]) then [turns[0].fields[Word.Id]] else [];
    assert turns[..n + 1][1..] == rest[..n];
    assert RunningIds(turns[..n + 1]) == ids + RunningIds(rest[..n]);
    assert (event + events)[..|ids + done|] == event + events[..|done|];
    assert (event + events)[|ids + done|..] == events[|done|..];
    forall k | 0 <= k < n + 1 ensures Readable(turns[k]) {
      assert k > 0 ==> turns[k] == rest[k - 1];
    }
  }

  lemma OneFirst<T>(before: seq<T>, one: T, done: seq<T>)
    ensures before + [one] + done == before + ([one] + done)
  {
  }

  /** Whatever the server answers: the interrupts go to the running turns in their order, each
      after the one before was answered; at the first that fails, or the first turn that cannot
      be read, it ends, and what is reported is what was done. */
  lemma {:induction false} InterruptsInOrder(srv: Server, trace: seq<Event>, thread: Json, turns: seq<Json>, before: seq<Json>)
    returns (events: seq<Event>, n: nat, done: seq<Json>)
    ensures var stage := InterruptAll(srv, trace, thread, turns, before);
      && stage.trace == trace + events && stage.done == before + done
      && InterruptedUpTo(events, thread, turns, n, done, stage.check.Pass?)
    decreases |turns|
  {
    var passed := InterruptAll(srv, trace, thread, turns, before).check.Pass?;
    events, n, done := [], 0, [];
    if turns == [] {
    } else if !Readable(turns[0]) {
      EndsAtFirst([], thread, turns);
    } else if !Running(turns[0]) {
      events, n, done := InterruptsInOrder(srv, trace, thread, turns[1..], before);
      OneTurnMore([], events, thread, turns, n, done, passed);
      assert [] + events == events && [] + done == done;
      n := n + 1;
    } else {
      var id := turns[0].fields[Word.Id];
      var call := TurnInterrupt(thread, id);
      var event := [Did(call, srv(trace, call))];
      if srv(trace, call).Ok? {
        events, n, done := InterruptsInOrder(srv, Asked(srv, trace, call), thread, turns[1..], before + [id]);
        OneTurnMore(event, events, thread, turns, n, done, passed);
        Regroup(trace, event, events);
        OneFirst(before, id, done);
        events, n, done := event + events, n + 1, [id] + done;
      } else {
        events := event;
        EndsAtFirst(event, thread, turns);
      }
    }
  }

  lemma EndsAtFirst(tail: seq<Event>, thread: Json, turns: seq<Json>)
    requires turns != [] && StopsAt(turns[0], thread, tail)
    ensures InterruptedUpTo(tail, thread, turns, 0, [], false)
  {
    assert tail[..0] == [] && tail[0..] == tail && turns[..0] == [];
  }

  /** The events are answered terminations of these processes, in order. */
  ghost predicate Terminations(events: seq<Event>, thread: Json, processes: seq<Word.Token>) {
    && |events| == |processes|
    && forall k | 0 <= k < |processes| :: events[k].call == TerminalTerminate(thread, processes[k]) && events[k].reply.Ok?
  }

  /** The process has a name that is not empty. */
  predicate NamesProcess(terminal: Json, process: Word.Token) {
    Has(terminal, Word.ProcessId, Str(process)) && process != Word.Other("")
  }

  ghost predicate EndsAt(terminal: Json, thread: Json, tail: seq<Event>) {
    if forall process :: !NamesProcess(terminal, process) then tail == []
    else
      && |tail| == 1 && tail[0].call.TerminalTerminate? && tail[0].call.thread == thread
      && NamesProcess(terminal, tail[0].call.process) && tail[0].reply.Err?
  }

  ghost predicate TerminatedUpTo(events: seq<Event>, thread: Json, terminals: seq<Json>, done: seq<Word.Token>, passed: bool) {
    && |done| <= |terminals| && (forall k | 0 <= k < |done| :: NamesProcess(terminals[k], done[k]))
    && |done| <= |events| && Terminations(events[..|done|], thread, done)
    && if passed then |done| == |terminals| && |events| == |done|
       else |done| < |terminals| && EndsAt(terminals[|done|], thread, events[|done|..])
  }

  lemma OneProcessMore(event: Event, events: seq<Event>, thread: Json, terminals: seq<Json>, process: Word.Token,
                       done: seq<Word.Token>, passed: bool)
    requires terminals != [] && NamesProcess(terminals[0], process)
    requires TerminatedUpTo(events, thread, terminals[1..], done, passed)
    requires event.call == TerminalTerminate(thread, process) && event.reply.Ok?
    ensures TerminatedUpTo([event] + events, thread, terminals, [process] + done, passed)
  {
    var all, rest := [process] + done, terminals[1..];
    forall k | 0 <= k < |all| ensures NamesProcess(terminals[k], all[k]) {
      assert k > 0 ==> terminals[k] == rest[k - 1];
    }
    assert ([event] + events)[..|all|] == [event] + events[..|done|];
    assert ([event] + events)[|all|..] == events[|done|..];
  }

  /** And so are the processes terminated. */
  lemma {:induction false} TerminationsInOrder(srv: Server, trace: seq<Event>, thread: Json, terminals: seq<Json>,
                                               before: seq<Word.Token>)
    returns (events: seq<Event>, done: seq<Word.Token>)
    ensures var stage := TerminateAll(srv, trace, thread, terminals, before);
      && stage.trace == trace + events && stage.done == before + done
      && TerminatedUpTo(events, thread, terminals, done, stage.check.Pass?)
    decreases |terminals|
  {
    events, done := [], [];
    if terminals != [] {
      var identity := Get(terminals[0], Word.ProcessId);
      if NonemptyStr(identity) {
        assert NamesProcess(terminals[0], identity.w);
        var call := TerminalTerminate(thread, identity.w);
        var event := Did(call, srv(trace, call));
        if srv(trace, call).Ok? {
          events, done := TerminationsInOrder(srv, Asked(srv, trace, call), thread, terminals[1..], before + [identity.w]);
          OneProcessMore(event, events, thread, terminals, identity.w, done,
                         TerminateAll(srv, trace, thread, terminals, before).check.Pass?);
          Regroup(trace, [event], events);
          OneFirst(before, identity.w, done);
          events, done := [event] + events, [identity.w] + done;
        } else {
          events := [event];
        }
      }
    }
  }

  // ------------------------------------------------------------- nothing after a failure

  /** `after` continues `before`, and no call but the last has failed; if it `passed`, none has. */
  ghost predicate FailsLast(before: seq<Event>, after: seq<Event>, passed: bool) {
    before <= after && forall i | |before| <= i < (if passed then |after| else |after| - 1) :: after[i].reply.Ok?
  }

  lemma FailsLastOn(a: seq<Event>, b: seq<Event>, c: seq<Event>, passed: bool)
    requires FailsLast(a, b, true) && FailsLast(b, c, passed)
    ensures FailsLast(a, c, passed)
  {
  }

  lemma {:induction false} TurnsFailLast(srv: Server, trace: seq<Event>, thread: Json, cursor: Option<Json>, seen: set<Json>,
                                         rows: seq<Json>, left: nat)
    ensures var step := TurnsFrom(srv, trace, thread, cursor, seen, rows, left); FailsLast(trace, step.trace, step.value.Ok?)
    decreases left
  {
    if left != 0 {
      var trace' := Asked(srv, trace, TurnsList(thread, cursor));
      var page := PageOf(srv(trace, TurnsList(thread, cursor)));
      if page.Ok? {
        TurnsFailLast(srv, trace', thread, Some(page.value.next), seen + {page.value.next}, rows + page.value.items, left - 1);
      }
    }
  }

  lemma InterruptsFailLast(srv: Server, trace: seq<Event>, thread: Json, turns: seq<Json>)
    ensures var stage := InterruptAll(srv, trace, thread, turns, []); FailsLast(trace, stage.trace, stage.check.Pass?)
  {
    var events, n, done := InterruptsInOrder(srv, trace, thread, turns, []);
    assert forall k | 0 <= k < |done| :: events[k] == events[..|done|][k];
    assert n < |turns| ==> |events[|done|..]| == |events| - |done|;
  }

  lemma TerminationsFailLast(srv: Server, trace: seq<Event>, thread: Json, terminals: seq<Json>)
    ensures var stage := TerminateAll(srv, trace, thread, terminals, []); FailsLast(trace, stage.trace, stage.check.Pass?)
  {
    var events, done := TerminationsInOrder(srv, trace, thread, terminals, []);
    assert forall k | 0 <= k < |done| :: events[k] == events[..|done|][k];
    assert |done| < |terminals| ==> |events[|done|..]| == |events| - |done|;
  }

  lemma ReadBackFailsLast(srv: Server, trace: seq<Event>, thread: Json)
    ensures var step := ReadBack(srv, trace, thread); FailsLast(trace, step.trace, step.value.Ok?)
  {
    TurnsFailLast(srv, trace, thread, None, {}, [], PAGE_BOUND);
  }

  lemma EndingFailsLast(srv: Server, trace: seq<Event>, thread: Json, interrupted: seq<Json>)
    ensures var (after, proof) := EndProcesses(srv, trace, thread, interrupted); FailsLast(trace, after, proof.Verified())
  {
    var listed := Asked(srv, trace, TerminalsList(thread));
    var terminals := Terminals(srv(trace, TerminalsList(thread)));
    if terminals.Ok? {
      TerminationsFailLast(srv, listed, thread, terminals.value);
      var ended := TerminateAll(srv, listed, thread, terminals.value, []);
      assert FailsLast(trace, listed, true);
      if ended.check.Pass? {
        ReadBackFailsLast(srv, ended.trace, thread);
        FailsLastOn(trace, listed, ended.trace, true);
        FailsLastOn(trace, ended.trace, ReadBack(srv, ended.trace, thread).trace, ReadBack(srv, ended.trace, thread).value.Ok?);
      } else {
        FailsLastOn(trace, listed, ended.trace, false);
      }
    }
  }

  lemma StoppingFailsLast(srv: Server, trace: seq<Event>, thread: Json)
    ensures var (after, proof) := StopTurns(srv, trace, thread); FailsLast(trace, after, proof.Verified())
  {
    var turns := AllTurns(srv, trace, thread);
    TurnsFailLast(srv, trace, thread, None, {}, [], PAGE_BOUND);
    if turns.value.Ok? {
      var stopped := InterruptAll(srv, turns.trace, thread, turns.value.value, []);
      InterruptsFailLast(srv, turns.trace, thread, turns.value.value);
      if stopped.check.Pass? {
        EndingFailsLast(srv, stopped.trace, thread, stopped.done);
        FailsLastOn(trace, turns.trace, stopped.trace, true);
        var (after, proof) := EndProcesses(srv, stopped.trace, thread, stopped.done);
        FailsLastOn(trace, stopped.trace, after, proof.Verified());
      } else {
        FailsLastOn(trace, turns.trace, stopped.trace, false);
      }
    }
  }

  /** Whatever the server answers, the first call of the cleanup that fails is the last one, and
      the cleanup is then not verified. */
  lemma NothingAfterFailure(srv: Server, trace: seq<Event>, thread: Json)
    ensures var (after, proof) := Cleaned(srv, trace, thread); FailsLast(trace, after, proof.Verified())
  {
    var pause := PauseGoal(srv, trace, thread);
    if pause.value.Ok? {
      StoppingFailsLast(srv, pause.trace, thread);
      var (after, proof) := StopTurns(srv, pause.trace, thread);
      FailsLastOn(trace, pause.trace, after, proof.Verified());
    }
  }

  // -------------------------------------------------------------------- one after the other

  datatype Part = Pausing | Listing | Interrupting | Ending | Reading

  /** The calls of each part of the cleanup. */
  predicate Belongs(call: Call, part: Part) {
    match part
    case Pausing => call.GoalGet? || call.GoalPause?
    case Listing => call.TurnsList?
    case Interrupting => call.TurnInterrupt?
    case Ending => call.TerminalsList? || call.TerminalTerminate?
    case Reading => call.TurnsList? || call.TerminalsList? || call.GoalGet?
  }

  ghost predicate Within(before: seq<Event>, after: seq<Event>, part: Part) {
    before <= after && forall i | |before| <= i < |after| :: Belongs(after[i].call, part)
  }

  /** The cleanup goes through its parts in this order, and may end in each. */
  ghost predicate InParts(trace: seq<Event>, a: seq<Event>, b: seq<Event>, c: seq<Event>, d: seq<Event>, after: seq<Event>) {
    Within(trace, a, Pausing) && Within(a, b, Listing) && Within(b, c, Interrupting) && Within(c, d, Ending) && Within(d, after, Reading)
  }

  lemma {:induction false} TurnsWithin(srv: Server, trace: seq<Event>, thread: Json, cursor: Option<Json>, seen: set<Json>,
                                       rows: seq<Json>, left: nat)
    ensures Within(trace, TurnsFrom(srv, trace, thread, cursor, seen, rows, left).trace, Listing)
    decreases left
  {
    if left != 0 {
      var trace' := Asked(srv, trace, TurnsList(thread, cursor));
      var page := PageOf(srv(trace, TurnsList(thread, cursor)));
      if page.Ok? {
        TurnsWithin(srv, trace', thread, Some(page.value.next), seen + {page.value.next}, rows + page.value.items, left - 1);
      }
    }
  }

  lemma InterruptsWithin(srv: Server, trace: seq<Event>, thread: Json, turns: seq<Json>)
    ensures Within(trace, InterruptAll(srv, trace, thread, turns, []).trace, Interrupting)
  {
    var events, n, done := InterruptsInOrder(srv, trace, thread, turns, []);
    assert forall k | 0 <= k < |done| :: events[k] == events[..|done|][k];
    assert forall k | |done| <= k < |events| :: events[k] == events[|done|..][k - |done|];
  }

  lemma TerminationsWithin(srv: Server, trace: seq<Event>, thread: Json, terminals: seq<Json>)
    ensures Within(trace, TerminateAll(srv, trace, thread, terminals, []).trace, Ending)
  {
    var events, done := TerminationsInOrder(srv, trace, thread, terminals, []);
    assert forall k | 0 <= k < |done| :: events[k] == events[..|done|][k];
    assert forall k | |done| <= k < |events| :: events[k] == events[|done|..][k - |done|];
  }

  lemma ReadBackWithin(srv: Server, trace: seq<Event>, thread: Json)
    ensures Within(trace, ReadBack(srv, trace, thread).trace, Reading)
  {
    TurnsWithin(srv, trace, thread, None, {}, [], PAGE_BOUND);
  }

  lemma EndingWithin(srv: Server, trace: seq<Event>, thread: Json, interrupted: seq<Json>) returns (d: seq<Event>)
    ensures var after := EndProcesses(srv, trace, thread, interrupted).0; Within(trace, d, Ending) && Within(d, after, Reading)
  {
    d := Asked(srv, trace, TerminalsList(thread));
    var terminals := Terminals(srv(trace, TerminalsList(thread)));
    if terminals.Ok? {
      var ended := TerminateAll(srv, d, thread, terminals.value, []);
      TerminationsWithin(srv, d, thread, terminals.value);
      d := ended.trace;
      if ended.check.Pass? {
        ReadBackWithin(srv, d, thread);
      }
    }
  }

  /** Whatever the server answers: first the goal is read and paused, then the turns are listed,
      then interrupted, then the terminals are listed and their processes ended, and then all is
      read back; nothing of a later part comes before, and nothing of an earlier one after. */
  lemma CleanedInParts(srv: Server, trace: seq<Event>, thread: Json)
    returns (a: seq<Event>, b: seq<Event>, c: seq<Event>, d: seq<Event>)
    ensures InParts(trace, a, b, c, d, Cleaned(srv, trace, thread).0)
  {
    var pause := PauseGoal(srv, trace, thread);
    a := pause.trace;
    b, c, d := a, a, a;
    if pause.value.Ok? {
      var turns := AllTurns(srv, a, thread);
      TurnsWithin(srv, a, thread, None, {}, [], PAGE_BOUND);
      b := turns.trace;
      c, d := b, b;
      if turns.value.Ok? {
        var stopped := InterruptAll(srv, b, thread, turns.value.value, []);
        InterruptsWithin(srv, b, thread, turns.value.value);
        c := stopped.trace;
        d := c;
        if stopped.check.Pass? {
          d := EndingWithin(srv, c, thread, stopped.done);
        }
      }
    }
  }

  /** Terminals that are not listed completely are not touched, and leave it unverified. */
  lemma IncompleteListingIsLeft(srv: Server, trace: seq<Event>, thread: Json, interrupted: seq<Json>)
    requires forall items :: !Lists(srv(trace, TerminalsList(thread)), items)
    ensures var (after, proof) := EndProcesses(srv, trace, thread, interrupted);
      after == Asked(srv, trace, TerminalsList(thread)) && !proof.Verified() && proof.terminated == []
  {
    var reply := srv(trace, TerminalsList(thread));
    if Terminals(reply).Ok? {
      TerminalsIs(reply, Terminals(reply).value);
    }
  }
}
