/** `_turns` and `_cleanup` of scripts/goal_supervision_real_acceptance.py. */
module Cleanup {
  import Word
  import opened Values
  import opened Native

  const PAGE_BOUND: nat := 32

  // ---------------------------------------------------------------- pages

  datatype Page = Page(items: seq<Json>, next: Json)

  function PageOf(reply: Result<Json>): Result<Page> {
    var page :- reply;
    var items :- IndexList(page, Word.Data);
    Ok(Page(items, Get(page, Word.NextCursor)))
  }

  /** The paged read from `cursor` on, with `left` requests to go. */
  function TurnsFrom(srv: Server, trace: seq<Event>, thread: Json, cursor: Option<Json>,
                     seen: set<Json>, rows: seq<Json>, left: nat): Step<seq<Json>>
    decreases left
  {
    if left == 0 then Step(trace, Err(Refused)) else
    var call := TurnsList(thread, cursor);
    var trace' := Asked(srv, trace, call);
    match PageOf(srv(trace, call))
    case Err(e) => Step(trace', Err(e))
    case Ok(page) =>
      if page.next == Null then Step(trace', Ok(rows + page.items))
      else if !NonemptyStr(page.next) || page.next in seen then Step(trace', Err(Refused))
      else TurnsFrom(srv, trace', thread, Some(page.next), seen + {page.next}, rows + page.items, left - 1)
  }

  function AllTurns(srv: Server, trace: seq<Event>, thread: Json): Step<seq<Json>> {
    TurnsFrom(srv, trace, thread, None, {}, [], PAGE_BOUND)
  }

  /** `_turns` */
  method Turns(w: World, thread: Json) returns (r: Result<seq<Json>>)
    requires w.Valid()
    modifies w
    ensures Step(w.trace, r) == AllTurns(w.server, old(w.trace), thread)
    ensures w.Valid()
  {
    var rows: seq<Json> := [];
    var cursor: Option<Json> := None;
    var seen: set<Json> := {};
    for i := 0 to PAGE_BOUND
      invariant TurnsFrom(w.server, w.trace, thread, cursor, seen, rows, PAGE_BOUND - i)
             == AllTurns(w.server, old(w.trace), thread)
      invariant w.Valid()
    {
      var reply := w.Ask(TurnsList(thread, cursor));
      var page :- PageOf(reply);
      rows := rows + page.items;
      if page.next == Null {
        return Ok(rows);
      }
      :- Require(NonemptyStr(page.next) && page.next !in seen);
      cursor := Some(page.next);
      seen := seen + {page.next};
    }
    return Err(Refused);
  }

  // -------------------------------------------------------------- cleanup

  /** What `_cleanup` returns; `verified` is true exactly when `outcome.Ok?`,
      and the goal read last is then its value. The two lists hold what was
      done even when a later step raises. */
  datatype CleanupProof = CleanupProof(interrupted: seq<Json>, terminated: seq<Word.Token>, outcome: Result<Json>) {
    predicate Verified() {
      outcome.Ok?
    }
  }

  /** A loop of effects: what it did, and whether it got through. */
  datatype Stage<+T> = Stage(trace: seq<Event>, done: seq<T>, check: Check)

  /** Whether there is a goal and it is active; a goal without a status raises. */
  function Active(goal: Json): Result<bool> {
    if !Truthy(goal) then Ok(false)
    else
      var status :- Index(goal, Word.Status);
      Ok(status == Str(Word.Active))
  }

  function PauseGoal(srv: Server, trace: seq<Event>, thread: Json): Step<()> {
    var trace' := Asked(srv, trace, GoalGet(thread));
    match GoalIn(srv(trace, GoalGet(thread)))
    case Err(e) => Step(trace', Err(e))
    case Ok(goal) =>
      match Active(goal)
      case Err(e) => Step(trace', Err(e))
      case Ok(false) => Step(trace', Ok(()))
      case Ok(true) =>
        var pause := GoalPause(thread, false);
        Step(Asked(srv, trace', pause),
             match srv(trace', pause) case Ok(_) => Ok(()) case Err(e) => Err(e))
  }

  function InterruptAll(srv: Server, trace: seq<Event>, thread: Json, turns: seq<Json>, done: seq<Json>): Stage<Json>
    decreases |turns|
  {
    if turns == [] then Stage(trace, done, Pass) else
    match Index(turns[0], Word.Status)
    case Err(e) => Stage(trace, done, Fail(e))
    case Ok(status) =>
      if status != Str(Word.InProgress) then InterruptAll(srv, trace, thread, turns[1..], done) else
      match Index(turns[0], Word.Id)
      case Err(e) => Stage(trace, done, Fail(e))
      case Ok(id) =>
        var call := TurnInterrupt(thread, id);
        match srv(trace, call)
        case Err(e) => Stage(Asked(srv, trace, call), done, Fail(e))
        case Ok(_) => InterruptAll(srv, Asked(srv, trace, call), thread, turns[1..], done + [id])
  }

  /** The listing of background terminals, which must be complete in one page. */
  function Terminals(reply: Result<Json>): Result<seq<Json>> {
    var page :- reply;
    if !page.Obj? || Get(page, Word.NextCursor) != Null then Err(Refused)
    else IndexList(page, Word.Data)
  }

  /** Whether the listing is empty and has no further page. */
  function NoneListed(reply: Result<Json>): Result<bool> {
    var page :- reply;
    var data :- Index(page, Word.Data);
    Ok(!Truthy(data) && Get(page, Word.NextCursor) == Null)
  }

  function TerminateAll(srv: Server, trace: seq<Event>, thread: Json, terminals: seq<Json>, done: seq<Word.Token>): Stage<Word.Token>
    decreases |terminals|
  {
    if terminals == [] then Stage(trace, done, Pass) else
    var identity := Get(terminals[0], Word.ProcessId);
    if !NonemptyStr(identity) then Stage(trace, done, Fail(Refused)) else
    var call := TerminalTerminate(thread, identity.w);
    match srv(trace, call)
    case Err(e) => Stage(Asked(srv, trace, call), done, Fail(e))
    case Ok(_) => TerminateAll(srv, Asked(srv, trace, call), thread, terminals[1..], done + [identity.w])
  }

  /** The reads that end `_cleanup`: turns, terminals, goal. */
  function ReadBack(srv: Server, trace: seq<Event>, thread: Json): Step<Json> {
    var turns := AllTurns(srv, trace, thread);
    match turns.value
    case Err(e) => Step(turns.trace, Err(e))
    case Ok(rows) =>
      if AnyRunning(rows) != Ok(false) then Step(turns.trace, Err(Refused)) else
      var trace1 := Asked(srv, turns.trace, TerminalsList(thread));
      if NoneListed(srv(turns.trace, TerminalsList(thread))) != Ok(true) then
        Step(trace1, Err(Refused))
      else
        var trace2 := Asked(srv, trace1, GoalGet(thread));
        match GoalIn(srv(trace1, GoalGet(thread)))
        case Err(e) => Step(trace2, Err(e))
        case Ok(goal) =>
          Step(trace2, if Active(goal) == Ok(false) then Ok(goal) else Err(Refused))
  }

  /** The rest of `_cleanup` from the listing of the terminals on. */
  function EndProcesses(srv: Server, trace: seq<Event>, thread: Json, interrupted: seq<Json>): (seq<Event>, CleanupProof) {
    var listed := Asked(srv, trace, TerminalsList(thread));
    match Terminals(srv(trace, TerminalsList(thread)))
    case Err(e) => (listed, CleanupProof(interrupted, [], Err(e)))
    case Ok(terminals) =>
      var ended := TerminateAll(srv, listed, thread, terminals, []);
      if ended.check.Fail? then (ended.trace, CleanupProof(interrupted, ended.done, Err(ended.check.error))) else
      var after := ReadBack(srv, ended.trace, thread);
      (after.trace, CleanupProof(interrupted, ended.done, after.value))
  }

  /** The rest of `_cleanup` from the first listing of the turns on. */
  function StopTurns(srv: Server, trace: seq<Event>, thread: Json): (seq<Event>, CleanupProof) {
    var turns := AllTurns(srv, trace, thread);
    if turns.value.Err? then (turns.trace, CleanupProof([], [], Err(turns.value.error))) else
    var stopped := InterruptAll(srv, turns.trace, thread, turns.value.value, []);
    if stopped.check.Fail? then (stopped.trace, CleanupProof(stopped.done, [], Err(stopped.check.error)))
    else EndProcesses(srv, stopped.trace, thread, stopped.done)
  }

  function Cleaned(srv: Server, trace: seq<Event>, thread: Json): (seq<Event>, CleanupProof) {
    var pause := PauseGoal(srv, trace, thread);
    if pause.value.Err? then (pause.trace, CleanupProof([], [], Err(pause.value.error)))
    else StopTurns(srv, pause.trace, thread)
  }

  // ------------------------------------------------------------ cleanup, step by step

  function AsCheck(r: Result<()>): Check {
    match r
    case Ok(_) => Pass
    case Err(e) => Fail(e)
  }

  method PauseActiveGoal(w: World, thread: Json) returns (r: Result<()>)
    requires w.Valid()
    modifies w
    ensures Step(w.trace, r) == PauseGoal(w.server, old(w.trace), thread)
    ensures w.Valid()
  {
    var reply := w.Ask(GoalGet(thread));
    var goal :- GoalIn(reply);
    var active :- Active(goal);
    if active {
      reply := w.Ask(GoalPause(thread, false));
      var _ :- reply;
    }
    r := Ok(());
  }

  /** The list keeps what was done when a step raises. */
  method InterruptTurns(w: World, thread: Json, turns: seq<Json>) returns (r: Result<()>, interrupted: seq<Json>)
    requires w.Valid()
    modifies w
    ensures Stage(w.trace, interrupted, AsCheck(r)) == InterruptAll(w.server, old(w.trace), thread, turns, [])
    ensures w.Valid()
  {
    interrupted := [];
    for i := 0 to |turns|
      invariant InterruptAll(w.server, w.trace, thread, turns[i..], interrupted)
             == InterruptAll(w.server, old(w.trace), thread, turns, [])
      invariant w.Valid()
    {
      assert turns[i..][1..] == turns[i + 1..];
      var status :- Index(turns[i], Word.Status);
      if status == Str(Word.InProgress) {
        var id :- Index(turns[i], Word.Id);
        var reply := w.Ask(TurnInterrupt(thread, id));
        var _ :- reply;
        interrupted := interrupted + [id];
      }
    }
    r := Ok(());
  }

  method EndTerminals(w: World, thread: Json, terminals: seq<Json>) returns (r: Result<()>, terminated: seq<Word.Token>)
    requires w.Valid()
    modifies w
    ensures Stage(w.trace, terminated, AsCheck(r)) == TerminateAll(w.server, old(w.trace), thread, terminals, [])
    ensures w.Valid()
  {
    terminated := [];
    for i := 0 to |terminals|
      invariant TerminateAll(w.server, w.trace, thread, terminals[i..], terminated)
             == TerminateAll(w.server, old(w.trace), thread, terminals, [])
      invariant w.Valid()
    {
      assert terminals[i..][1..] == terminals[i + 1..];
      var identity := Get(terminals[i], Word.ProcessId);
      :- Require(NonemptyStr(identity));
      var reply := w.Ask(TerminalTerminate(thread, identity.w));
      var _ :- reply;
      terminated := terminated + [identity.w];
    }
    r := Ok(());
  }

  /** The readback; the result is the goal read last. */
  method ReadAllBack(w: World, thread: Json) returns (r: Result<Json>)
    requires w.Valid()
    modifies w
    ensures Step(w.trace, r) == ReadBack(w.server, old(w.trace), thread)
    ensures w.Valid()
  {
    var rows := Turns(w, thread);
    var turns :- rows;
    :- Require(AnyRunning(turns) == Ok(false));
    var reply := w.Ask(TerminalsList(thread));
    :- Require(NoneListed(reply) == Ok(true));
    reply := w.Ask(GoalGet(thread));
    var goal :- GoalIn(reply);
    :- Require(Active(goal) == Ok(false));
    r := Ok(goal);
  }

  /** From the listing of the terminals on. */
  method EndAndReadBack(w: World, thread: Json) returns (outcome: Result<Json>, terminated: seq<Word.Token>)
    requires w.Valid()
    modifies w
    ensures (w.trace, CleanupProof([], terminated, outcome)) == EndProcesses(w.server, old(w.trace), thread, [])
    ensures w.Valid()
  {
    terminated := [];
    var reply := w.Ask(TerminalsList(thread));
    var terminals :- Terminals(reply);
    var ended;
    ended, terminated := EndTerminals(w, thread, terminals);
    var _ :- ended;
    outcome := ReadAllBack(w, thread);
  }

  /** `_cleanup` up to its `except`. */
  method CleanupSteps(w: World, thread: Json)
    returns (outcome: Result<Json>, interrupted: seq<Json>, terminated: seq<Word.Token>)
    requires w.Valid()
    modifies w
    ensures (w.trace, CleanupProof(interrupted, terminated, outcome)) == Cleaned(w.server, old(w.trace), thread)
    ensures w.Valid()
  {
    interrupted, terminated := [], [];
    var paused := PauseActiveGoal(w, thread);
    var _ :- paused;
    var rows := Turns(w, thread);
    var turns :- rows;
    var stopped;
    stopped, interrupted := InterruptTurns(w, thread, turns);
    var _ :- stopped;
    ghost var before := w.trace;
    outcome, terminated := EndAndReadBack(w, thread);
    EndProcessesKeeps(w.server, before, thread, interrupted);
  }

  /** The processes are ended alike whatever was interrupted before. */
  lemma EndProcessesKeeps(srv: Server, trace: seq<Event>, thread: Json, interrupted: seq<Json>)
    ensures var (trace', proof) := EndProcesses(srv, trace, thread, []);
      EndProcesses(srv, trace, thread, interrupted) == (trace', CleanupProof(interrupted, proof.terminated, proof.outcome))
  {
  }

  /** `_cleanup` */
  method Cleanup(w: World, thread: Json) returns (proof: CleanupProof)
    requires w.Valid()
    modifies w
    ensures (w.trace, proof) == Cleaned(w.server, old(w.trace), thread)
    ensures w.Valid()
  {
    var outcome, interrupted, terminated := CleanupSteps(w, thread);
    proof := CleanupProof(interrupted, terminated, outcome);
  }
}
