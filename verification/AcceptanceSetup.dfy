/** The first part of `run` in scripts/goal_supervision_real_acceptance.py, for every
    environment: from the start of the thread to the activation of its goal. */
module AcceptanceSetup {
  import Word
  import opened Values
  import opened Native
  import opened Receipts

  // The calls of each group; a history may have fewer of them, but no others.

  ghost predicate StartCalls(start: seq<Event>) {
    && |start| <= 3
    && (|start| > 0 ==> start[0].call == Save(Prompt))
    && (|start| > 1 ==> start[1].call == ThreadStart)
    && (|start| > 2 ==> start[2].call == Save(NativeStart))
  }

  ghost predicate McpCalls(thread: Json, events: seq<Event>) {
    && |events| <= 2
    && (|events| > 0 ==> events[0].call == McpStatus(thread))
    && (|events| > 1 ==> events[1].call == Save(McpReadback))
  }

  ghost predicate ControllerCalls(thread: Json, path: Word.Token, events: seq<Event>) {
    && |events| <= 3
    && (|events| > 0 ==> events[0].call == HistoryHome(path))
    && (|events| > 1 ==> events[1].call == ReadStatus(thread))
    && (|events| > 2 ==> events[2].call == Save(StatusBefore))
  }

  ghost predicate GoalCalls(thread: Json, options: Options, events: seq<Event>) {
    && |events| <= 3
    && (|events| > 0 ==> events[0].call == GoalSetup(thread, options.tokenLimit))
    && (|events| > 1 ==> events[1].call == GoalGet(thread))
    && (|events| > 2 ==> events[2].call == Save(GoalBefore))
  }

  /** The thread is started, and its identity is known. */
  ghost predicate StartGate(options: Options, start: seq<Event>) {
    Approved(options) && |start| == 3 && start[0].reply.Ok? && ThreadId(start[1].reply).Ok? && start[2].reply.Ok?
  }

  /** The permissions are the approved ones, and the right MCP server is installed. */
  ghost predicate McpGate(options: Options, started: Json, events: seq<Event>) {
    && PermissionsMatch(started)
    && |events| == 2 && events[0].reply.Ok? && events[1].reply.Ok?
    && McpInstalled(events[0].reply.value, options.expectedVersion)
  }

  /** The history is kept in the expected home, and the controller is fresh. */
  ghost predicate ControllerGate(started: Json, events: seq<Event>) {
    && RolloutPath(started).Ok?
    && |events| == 3 && events[0].reply == Ok(Bool(true)) && events[1].reply.Ok? && events[2].reply.Ok?
    && ControllerFresh(events[1].reply.value)
  }

  /** The goal that was set and the goal read back are the same one, blocked. */
  predicate GoalAgrees(thread: Json, made: Result<Json>, read: Result<Json>) {
    GoalIn(made).Ok? && GoalIn(read).Ok? && GoalBlocked(GoalIn(made).value, GoalIn(read).value, thread)
  }

  /** The goal reads back as it was set, blocked. */
  ghost predicate GoalGate(thread: Json, events: seq<Event>) {
    |events| == 3 && GoalAgrees(thread, events[0].reply, events[1].reply) && events[2].reply.Ok?
  }

  // Each group of calls stops only at a call that failed, or at a reading that was refused,
  // and nothing follows that one.

  ghost predicate StartStuck(options: Options, start: seq<Event>) {
    if !Approved(options) then start == []
    else if |start| == 1 then start[0].reply.Err?
    else if |start| == 2 then start[0].reply.Ok? && ThreadId(start[1].reply).Err?
    else |start| == 3 && start[0].reply.Ok? && ThreadId(start[1].reply).Ok? && start[2].reply.Err?
  }

  ghost predicate McpStuck(options: Options, started: Json, events: seq<Event>) {
    if !PermissionsMatch(started) then events == []
    else if |events| == 1 then events[0].reply.Err?
    else |events| == 2 && events[0].reply.Ok?
         && (events[1].reply.Err? || !McpInstalled(events[0].reply.value, options.expectedVersion))
  }

  ghost predicate ControllerStuck(started: Json, events: seq<Event>) {
    if RolloutPath(started).Err? then events == []
    else if |events| == 1 then events[0].reply != Ok(Bool(true))
    else if |events| == 2 then events[0].reply == Ok(Bool(true)) && events[1].reply.Err?
    else |events| == 3 && events[0].reply == Ok(Bool(true)) && events[1].reply.Ok?
         && (events[2].reply.Err? || !ControllerFresh(events[1].reply.value))
  }

  ghost predicate GoalStuck(thread: Json, events: seq<Event>) {
    if |events| == 1 then GoalIn(events[0].reply).Err?
    else if |events| == 2 then GoalIn(events[0].reply).Ok? && !GoalAgrees(thread, events[0].reply, events[1].reply)
    else |events| == 3 && GoalAgrees(thread, events[0].reply, events[1].reply) && events[2].reply.Err?
  }

  method StartThread(w: World, options: Options)
    returns (r: Result<Json>, thread: Option<Json>, ghost start: seq<Event>)
    requires w.Valid()
    modifies w
    ensures w.trace == old(w.trace) + start && w.Now() >= old(w.Now()) && w.Valid()
    ensures StartCalls(start)
    ensures thread == if |start| > 1 && ThreadId(start[1].reply).Ok? then Some(ThreadId(start[1].reply).value) else None
    ensures r.Ok? ==> StartGate(options, start) && r == start[1].reply
    ensures r.Err? ==> StartStuck(options, start)
  {
    thread, start := None, [];
    :- Require(Approved(options));
    var reply := w.Ask(Save(Prompt));
    start := [Did(Save(Prompt), reply)];
    var _ :- reply;
    r := w.Ask(ThreadStart);
    start := start + [Did(ThreadStart, r)];
    var started :- r;
    var id :- ThreadId(r);
    thread := Some(id);
    reply := w.Ask(Save(NativeStart));
    start := start + [Did(Save(NativeStart), reply)];
    var _ :- reply;
  }

  method QualifyMcp(w: World, options: Options, started: Json, thread: Json)
    returns (r: Result<()>, ghost events: seq<Event>)
    requires w.Valid()
    modifies w
    ensures w.trace == old(w.trace) + events && w.Now() >= old(w.Now()) && w.Valid()
    ensures McpCalls(thread, events)
    ensures r.Ok? ==> McpGate(options, started, events)
    ensures r.Err? ==> McpStuck(options, started, events)
  {
    events := [];
    :- Require(PermissionsMatch(started));
    var reply := w.Ask(McpStatus(thread));
    events := [Did(McpStatus(thread), reply)];
    var catalog :- reply;
    reply := w.Ask(Save(McpReadback));
    events := events + [Did(Save(McpReadback), reply)];
    var _ :- reply;
    :- Require(McpInstalled(catalog, options.expectedVersion));
    r := Ok(());
  }

  method QualifyController(w: World, started: Json, thread: Json)
    returns (r: Result<()>, ghost events: seq<Event>)
    requires w.Valid()
    modifies w
    ensures w.trace == old(w.trace) + events && w.Now() >= old(w.Now()) && w.Valid()
    ensures ControllerCalls(thread, RolloutPath(started).GetOr(EMPTY), events)
    ensures r.Ok? ==> ControllerGate(started, events)
    ensures r.Err? ==> ControllerStuck(started, events)
  {
    events := [];
    var path :- RolloutPath(started);
    var reply := w.Ask(HistoryHome(path));
    events := [Did(HistoryHome(path), reply)];
    :- Require(reply == Ok(Bool(true)));
    reply := w.Ask(ReadStatus(thread));
    events := events + [Did(ReadStatus(thread), reply)];
    var status :- reply;
    reply := w.Ask(Save(StatusBefore));
    events := events + [Did(Save(StatusBefore), reply)];
    var _ :- reply;
    :- Require(ControllerFresh(status));
    r := Ok(());
  }

  method SetGoal(w: World, options: Options, thread: Json)
    returns (r: Result<Json>, ghost events: seq<Event>)
    requires w.Valid()
    modifies w
    ensures w.trace == old(w.trace) + events && w.Now() >= old(w.Now()) && w.Valid()
    ensures GoalCalls(thread, options, events)
    ensures r.Ok? ==> GoalGate(thread, events) && r == GoalIn(events[1].reply)
    ensures r.Err? ==> GoalStuck(thread, events)
  {
    var made := w.Ask(GoalSetup(thread, options.tokenLimit));
    events := [Did(GoalSetup(thread, options.tokenLimit), made)];
    var goal :- GoalIn(made);
    var read := w.Ask(GoalGet(thread));
    events := events + [Did(GoalGet(thread), read)];
    var actual :- GoalIn(read);
    :- Require(GoalBlocked(goal, actual, thread));
    var reply := w.Ask(Save(GoalBefore));
    events := events + [Did(Save(GoalBefore), reply)];
    var _ :- reply;
    r := Ok(actual);
  }

  // ----------------------------------------------------------------------- history

  // Each group of calls is followed by the next exactly when its gate has held, and stops
  // short of its gate only when it is stuck.

  datatype DispatchHistory = DispatchHistory(goal: seq<Event>, activation: Option<Event>) {
    ghost function Trace(): seq<Event> {
      if activation.Some? then goal + [activation.value] else goal
    }

    ghost predicate Lawful(options: Options, thread: Json) {
      && GoalCalls(thread, options, goal)
      && if activation.Some? then GoalGate(thread, goal) && activation.value.call == GoalActivate(thread)
         else GoalStuck(thread, goal)
    }

    ghost predicate Ready() {
      activation.Some? && activation.value.reply.Ok?
    }

    ghost predicate Activated() {
      activation.Some?
    }

    /** The goal read back. */
    ghost function Goal(): Json {
      if |goal| > 1 then GoalIn(goal[1].reply).GetOr(Null) else Null
    }
  }

  datatype ControllerHistory = ControllerHistory(controller: seq<Event>, dispatch: Option<DispatchHistory>) {
    ghost function Trace(): seq<Event> {
      if dispatch.Some? then controller + dispatch.value.Trace() else controller
    }

    ghost predicate Lawful(options: Options, started: Json, thread: Json) {
      && ControllerCalls(thread, RolloutPath(started).GetOr(EMPTY), controller)
      && if dispatch.Some? then ControllerGate(started, controller) && dispatch.value.Lawful(options, thread)
         else ControllerStuck(started, controller)
    }

    ghost predicate Ready() {
      dispatch.Some? && dispatch.value.Ready()
    }

    ghost predicate Activated() {
      dispatch.Some? && dispatch.value.Activated()
    }

    ghost function Goal(): Json {
      if dispatch.Some? then dispatch.value.Goal() else Null
    }
  }

  datatype Preparation = Preparation(mcp: seq<Event>, rest: Option<ControllerHistory>) {
    ghost function Trace(): seq<Event> {
      if rest.Some? then mcp + rest.value.Trace() else mcp
    }

    ghost predicate Lawful(options: Options, started: Json, thread: Json) {
      && McpCalls(thread, mcp)
      && if rest.Some? then McpGate(options, started, mcp) && rest.value.Lawful(options, started, thread)
         else McpStuck(options, started, mcp)
    }

    ghost predicate Ready() {
      rest.Some? && rest.value.Ready()
    }

    ghost predicate Activated() {
      rest.Some? && rest.value.Activated()
    }

    ghost function Goal(): Json {
      if rest.Some? then rest.value.Goal() else Null
    }
  }

  /** The goal is set, read back, and activated exactly when it reads back as set. */
  method Dispatch(w: World, options: Options, thread: Json)
    returns (r: Result<Json>, dispatched: bool, ghost h: DispatchHistory)
    requires w.Valid()
    modifies w
    ensures w.trace == old(w.trace) + h.Trace() && w.Now() >= old(w.Now()) && w.Valid()
    ensures h.Lawful(options, thread)
    ensures (dispatched <==> h.Activated()) && (r.Ok? <==> h.Ready())
    ensures r.Ok? ==> r.value == h.Goal()
  {
    ghost var goal;
    dispatched := false;
    r, goal := SetGoal(w, options, thread);
    h := DispatchHistory(goal, None);
    if r.Ok? {
      dispatched := true;
      var reply := w.Ask(GoalActivate(thread));
      h := DispatchHistory(goal, Some(Did(GoalActivate(thread), reply)));
      var _ :- reply;
    }
  }

  method PrepareController(w: World, options: Options, started: Json, thread: Json)
    returns (r: Result<Json>, dispatched: bool, ghost h: ControllerHistory)
    requires w.Valid()
    modifies w
    ensures w.trace == old(w.trace) + h.Trace() && w.Now() >= old(w.Now()) && w.Valid()
    ensures h.Lawful(options, started, thread)
    ensures (dispatched <==> h.Activated()) && (r.Ok? <==> h.Ready())
    ensures r.Ok? ==> r.value == h.Goal()
  {
    dispatched := false;
    var qualified, controller := QualifyController(w, started, thread);
    h := ControllerHistory(controller, None);
    var _ :- qualified;
    ghost var dispatch;
    r, dispatched, dispatch := Dispatch(w, options, thread);
    h := ControllerHistory(controller, Some(dispatch));
    Regroup(old(w.trace), controller, dispatch.Trace());
  }

  /** The gates between the start of the thread and the activation of its goal. */
  method Prepare(w: World, options: Options, started: Json, thread: Json)
    returns (r: Result<Json>, dispatched: bool, ghost h: Preparation)
    requires w.Valid()
    modifies w
    ensures w.trace == old(w.trace) + h.Trace() && w.Now() >= old(w.Now()) && w.Valid()
    ensures h.Lawful(options, started, thread)
    ensures (dispatched <==> h.Activated()) && (r.Ok? <==> h.Ready())
    ensures r.Ok? ==> r.value == h.Goal()
  {
    dispatched := false;
    var qualified, mcp := QualifyMcp(w, options, started, thread);
    h := Preparation(mcp, None);
    var _ :- qualified;
    ghost var rest;
    r, dispatched, rest := PrepareController(w, options, started, thread);
    h := Preparation(mcp, Some(rest));
    Regroup(old(w.trace), mcp, rest.Trace());
  }

  /** The history of the whole setup; there is a preparation once the thread is started. */
  datatype SetupHistory = SetupHistory(start: seq<Event>, rest: Option<Preparation>) {
    ghost function Trace(): seq<Event> {
      start + RestTrace()
    }

    ghost function RestTrace(): seq<Event> {
      if rest.Some? then rest.value.Trace() else []
    }

    ghost function Started(): Json {
      if |start| > 1 then start[1].reply.GetOr(Null) else Null
    }

    ghost function Thread(): Option<Json> {
      if |start| > 1 && ThreadId(start[1].reply).Ok? then Some(ThreadId(start[1].reply).value) else None
    }

    ghost function Owned(): Json {
      Thread().GetOr(Null)
    }

    ghost predicate Lawful(options: Options) {
      && StartCalls(start)
      && if rest.Some? then StartGate(options, start) && rest.value.Lawful(options, Started(), Owned())
         else StartStuck(options, start)
    }

    /** Every gate has been reached and has held. */
    ghost predicate GatesHold(options: Options) {
      && StartGate(options, start)
      && rest.Some? && McpGate(options, Started(), rest.value.mcp)
      && var controller := rest.value.rest;
      && controller.Some? && ControllerGate(Started(), controller.value.controller)
      && var dispatch := controller.value.dispatch;
      && dispatch.Some? && GoalGate(Owned(), dispatch.value.goal)
    }

    ghost predicate Activated() {
      rest.Some? && rest.value.Activated()
    }

    /** The goal was activated, and that was answered. */
    ghost predicate Ready() {
      rest.Some? && rest.value.Ready()
    }

    /** The goal read back. */
    ghost function Goal(): Json {
      if rest.Some? then rest.value.Goal() else Null
    }
  }

  /** Everything up to the activation of the goal. */
  method Setup(w: World, options: Options)
    returns (r: Result<Json>, thread: Option<Json>, dispatched: bool, ghost h: SetupHistory)
    requires w.Valid()
    modifies w
    ensures w.trace == old(w.trace) + h.Trace() && w.Now() >= old(w.Now()) && w.Valid()
    ensures h.Lawful(options)
    ensures thread == h.Thread()
    ensures (dispatched <==> h.Activated()) && (r.Ok? <==> h.Ready())
    ensures r.Ok? ==> r.value == h.Goal() && thread.Some?
  {
    var ready, id, start := StartThread(w, options);
    thread := id;
    if ready.Ok? {
      ghost var rest;
      r, dispatched, rest := Prepare(w, options, ready.value, id.value);
      h := SetupHistory(start, Some(rest));
      Regroup(old(w.trace), start, rest.Trace());
    } else {
      r, dispatched := Err(ready.error), false;
      h := SetupHistory(start, None);
      assert h.Trace() == start;
    }
  }
}
