/** A world in which everything goes well, and the run in it: it passes. It shows that the
    gates of the run, its allowance, its cleanup and its verdict can all be met together. */
module PassingRun {
  import Word
  import opened Values
  import opened Native
  import opened Cleanup
  import opened Receipts
  import opened Readings
  import opened AcceptanceSetup
  import opened AcceptancePolling
  import opened AcceptanceOperator
  import opened Acceptance

  // --------------------------------------------------------------------- the server

  /** What the server answers, whatever was asked before; only the goal changes, from
      blocked to paused once it was activated. */
  datatype Script = Script(thread: Json, started: Json, catalog: Json, status: Json, blocked: Json, paused: Json,
                           native: Json, turn: Json, operator: Json, replay: Json, page: Json, terminals: Json)

  /** The goal is activated by call number 12; before that it is blocked. */
  const ACTIVATION: nat := 12

  function Respond(s: Script, n: nat, call: Call): Result<Json> {
    match call
    case ThreadStart => Ok(s.started)
    case McpStatus(_) => Ok(s.catalog)
    case HistoryHome(_) => Ok(Bool(true))
    case ReadStatus(_) => Ok(s.status)
    case GoalSetup(_, _) => Ok(s.blocked)
    case GoalGet(_) => Ok(if n < ACTIVATION then s.blocked else s.paused)
    case TurnsList(_, _) => Ok(s.page)
    case TerminalsList(_) => Ok(s.terminals)
    case ThreadRead(_) => Ok(s.native)
    case TurnStart(_) => Ok(s.turn)
    case CheckpointFile => Ok(Bool(true))
    case ObserveRaw(_, _) => Ok(s.replay)
    case _ => Ok(Null)
  }

  function ServerOf(s: Script): Server {
    (trace: seq<Event>, call: Call) => Respond(s, |trace|, call)
  }

  /** Only sleeping takes time. */
  function NoTime(): Timing {
    SleepTimeTicks();
    trace => SleepTime(trace)
  }

  /** What it takes to pass, part by part. */
  ghost predicate StartGood(s: Script) {
    ThreadId(Ok(s.started)) == Ok(s.thread) && PermissionsMatch(s.started) && RolloutPath(s.started).Ok?
  }

  ghost predicate BlockedGood(s: Script) {
    GoalAgrees(s.thread, Ok(s.blocked), Ok(s.blocked)) && Index(GoalIn(Ok(s.blocked)).value, Word.CreatedAt).Ok?
  }

  ghost predicate StatusGood(s: Script, options: Options) {
    && !NotYetEnrolled(s.status) && Enrolls(s.status, options) && Acceptable(s.status, options, Unenrolled)
    && CheckpointAcknowledged(s.status)
  }

  ghost predicate FinalGood(s: Script, options: Options) {
    Qualified(s.status, options, s.status) && Replays(s.replay, s.status) && Index(s.status, Word.UsedTokens).Ok?
  }

  ghost predicate PauseGood(s: Script) {
    && HasKey(s.paused, Word.Goal) && HasKey(s.native, Word.Thread)
    && ReadsPaused(s.paused.fields[Word.Goal], s.native.fields[Word.Thread])
  }

  ghost predicate TurnGood(s: Script) {
    && OperatorTurn(Ok(s.turn)) == Ok(s.operator)
    && (forall reply | reply == Ok(s.native) :: TurnCompleted(reply, s.operator))
    && !Resumed(Ok(s.paused))
  }

  ghost predicate CleanupGood(s: Script) {
    && PageOf(Ok(s.page)) == Ok(Page([], Null))
    && Terminals(Ok(s.terminals)) == Ok([]) && NoneListed(Ok(s.terminals)) == Ok(true)
    && GoalIn(Ok(s.paused)).Ok? && Active(GoalIn(Ok(s.paused)).value) == Ok(false)
  }

  /** What it takes to get through the setup. */
  ghost predicate SetupGood(s: Script, options: Options) {
    && Approved(options)
    && StartGood(s) && McpInstalled(s.catalog, options.expectedVersion) && ControllerFresh(s.status) && BlockedGood(s)
  }

  ghost predicate Good(s: Script, options: Options) {
    && SetupGood(s, options)
    && StatusGood(s, options) && PauseGood(s) && TurnGood(s) && FinalGood(s, options) && CleanupGood(s)
  }

  // ------------------------------------------------------------------ what it has told

  /** The events, which begin at number `from`, are answered by the script. */
  ghost predicate Told(s: Script, events: seq<Event>, from: nat) {
    forall i | 0 <= i < |events| ::
      events[i].call == Clock || events[i].call == Sleep || events[i].reply == Respond(s, from + i, events[i].call)
  }

  lemma ToldParts(s: Script, a: seq<Event>, b: seq<Event>, from: nat)
    requires Told(s, a + b, from)
    ensures Told(s, a, from) && Told(s, b, from + |a|)
  {
    forall i | 0 <= i < |a|
      ensures a[i].call == Clock || a[i].call == Sleep || a[i].reply == Respond(s, from + i, a[i].call)
    {
      assert (a + b)[i] == a[i];
    }
    forall i | 0 <= i < |b|
      ensures b[i].call == Clock || b[i].call == Sleep || b[i].reply == Respond(s, from + |a| + i, b[i].call)
    {
      assert (a + b)[|a| + i] == b[i];
    }
  }

  lemma GenuineIsTold(s: Script, trace: seq<Event>)
    requires AllGenuine(ServerOf(s), NoTime(), trace)
    ensures Told(s, trace, 0)
  {
    forall i | 0 <= i < |trace|
      ensures trace[i].call == Clock || trace[i].call == Sleep || trace[i].reply == Respond(s, 0 + i, trace[i].call)
    {
      assert Genuine(ServerOf(s), NoTime(), trace, i);
    }
  }

  ghost predicate NoSleep(events: seq<Event>) {
    forall i | 0 <= i < |events| :: events[i].call != Sleep
  }

  lemma NoSleepOn(a: seq<Event>, b: seq<Event>)
    requires NoSleep(a) && NoSleep(b)
    ensures NoSleep(a + b)
  {
  }

  lemma {:induction false} NoSleepNoTime(events: seq<Event>)
    requires NoSleep(events)
    ensures SleepTime(events) == 0.0
  {
    if events != [] {
      NoSleepNoTime(events[..|events| - 1]);
    }
  }

  /** A reading of the clock before which nothing slept shows no time. */
  lemma ShownIsZero(s: Script, a: seq<Event>, time: real, b: seq<Event>)
    requires AllGenuine(ServerOf(s), NoTime(), a + [Shown(time)] + b)
    requires NoSleep(a)
    ensures time == 0.0
  {
    var all := a + [Shown(time)] + b;
    assert Genuine(ServerOf(s), NoTime(), all, |a|);
    assert all[|a|] == Shown(time) && all[..|a|] == a;
    NoSleepNoTime(a);
  }

  // --------------------------------------------------------------------------- setup

  lemma StartWorks(s: Script, options: Options, h: SetupHistory)
    requires Approved(options) && StartGood(s) && h.Lawful(options) && Told(s, h.start, 1)
    ensures h.rest.Some? && |h.start| == 3 && NoSleep(h.start)
    ensures h.Started() == s.started && h.Owned() == s.thread && h.Thread() == Some(s.thread)
  {
    assert |h.start| > 1 ==> h.start[1].reply == Ok(s.started);
  }

  lemma McpAnswered(s: Script, options: Options, mcp: seq<Event>, from: nat)
    requires StartGood(s) && McpInstalled(s.catalog, options.expectedVersion) && McpCalls(s.thread, mcp) && Told(s, mcp, from)
    ensures !McpStuck(options, s.started, mcp)
    ensures McpGate(options, s.started, mcp) ==> |mcp| == 2 && NoSleep(mcp)
  {
    assert |mcp| > 0 ==> mcp[0].reply == Ok(s.catalog);
  }

  lemma McpWorks(s: Script, options: Options, h: Preparation, from: nat)
    requires StartGood(s) && McpInstalled(s.catalog, options.expectedVersion) && h.Lawful(options, s.started, s.thread) && Told(s, h.mcp, from)
    ensures h.rest.Some? && |h.mcp| == 2 && NoSleep(h.mcp)
  {
    McpAnswered(s, options, h.mcp, from);
  }

  lemma ControllerWorks(s: Script, options: Options, h: ControllerHistory, from: nat)
    requires StartGood(s) && ControllerFresh(s.status) && h.Lawful(options, s.started, s.thread) && Told(s, h.controller, from)
    ensures h.dispatch.Some? && |h.controller| == 3 && NoSleep(h.controller)
  {
    assert |h.controller| > 1 ==> h.controller[1].reply == Ok(s.status);
  }

  lemma DispatchWorks(s: Script, options: Options, h: DispatchHistory)
    requires BlockedGood(s) && h.Lawful(options, s.thread) && Told(s, h.goal, 9)
    ensures h.activation.Some? && |h.goal| == 3 && NoSleep(h.goal)
    ensures Ok(h.Goal()) == GoalIn(Ok(s.blocked))
  {
    assert |h.goal| > 1 ==> h.goal[1].reply == Ok(s.blocked);
  }

  lemma DispatchReady(s: Script, options: Options, h: DispatchHistory)
    requires BlockedGood(s) && h.Lawful(options, s.thread) && Told(s, h.Trace(), 9)
    ensures h.Ready() && |h.Trace()| == 4 && NoSleep(h.Trace())
    ensures Ok(h.Goal()) == GoalIn(Ok(s.blocked))
  {
    if h.activation.Some? {
      ToldParts(s, h.goal, [h.activation.value], 9);
      assert [h.activation.value][0].reply == Respond(s, 9 + |h.goal| + 0, h.activation.value.call);
    }
    DispatchWorks(s, options, h);
    NoSleepOn(h.goal, [h.activation.value]);
  }

  lemma ControllerReady(s: Script, options: Options, h: ControllerHistory)
    requires StartGood(s) && ControllerFresh(s.status) && BlockedGood(s) && h.Lawful(options, s.started, s.thread) && Told(s, h.Trace(), 6)
    ensures h.Ready() && |h.Trace()| == 7 && NoSleep(h.Trace())
    ensures Ok(h.Goal()) == GoalIn(Ok(s.blocked))
  {
    if h.dispatch.Some? {
      ToldParts(s, h.controller, h.dispatch.value.Trace(), 6);
    }
    ControllerWorks(s, options, h, 6);
    DispatchReady(s, options, h.dispatch.value);
    NoSleepOn(h.controller, h.dispatch.value.Trace());
  }

  lemma PreparationReady(s: Script, options: Options, h: Preparation)
    requires SetupGood(s, options) && h.Lawful(options, s.started, s.thread) && Told(s, h.Trace(), 4)
    ensures h.Ready() && |h.Trace()| == 9 && NoSleep(h.Trace())
    ensures Ok(h.Goal()) == GoalIn(Ok(s.blocked))
  {
    if h.rest.Some? {
      ToldParts(s, h.mcp, h.rest.value.Trace(), 4);
    }
    McpWorks(s, options, h, 4);
    ControllerReady(s, options, h.rest.value);
    NoSleepOn(h.mcp, h.rest.value.Trace());
  }

  lemma SetupReady(s: Script, options: Options, h: SetupHistory)
    requires SetupGood(s, options) && h.Lawful(options) && Told(s, h.Trace(), 1)
    ensures h.Ready() && |h.Trace()| == ACTIVATION && NoSleep(h.Trace())
    ensures h.Thread() == Some(s.thread) && h.Owned() == s.thread
    ensures Ok(h.Goal()) == GoalIn(Ok(s.blocked))
  {
    ToldParts(s, h.start, h.RestTrace(), 1);
    StartWorks(s, options, h);
    PreparationReady(s, options, h.rest.value);
    NoSleepOn(h.start, h.RestTrace());
  }

  // --------------------------------------------------------------------- outer loop

  lemma GoalWorks(s: Script, options: Options, h: GoalHistory, again: bool, from: nat)
    requires PauseGood(s) && h.Lawful(s.thread, true, again) && Told(s, h.goal, from) && from >= ACTIVATION
    ensures h.file.Some? && !again && NoSleep(h.goal)
  {
    assert h.goal[0].reply == Ok(s.paused) && (|h.goal| > 1 ==> h.goal[1].reply == Ok(s.native));
  }

  lemma PauseWorks(s: Script, options: Options, h: GoalHistory, again: bool, from: nat)
    requires PauseGood(s) && h.Lawful(s.thread, true, again) && Told(s, h.Trace(), from) && from >= ACTIVATION
    ensures h.Done() && !again && NoSleep(h.Trace())
  {
    if h.file.Some? {
      ToldParts(s, h.goal, h.file.value, from);
    }
    GoalWorks(s, options, h, again, from);
    assert NoSleep(h.file.value);
    NoSleepOn(h.goal, h.file.value);
  }

  lemma StatusWorks(s: Script, options: Options, r: Round, from: nat)
    requires StatusGood(s, options) && r.Lawful(options, s.thread, Unenrolled) && Told(s, r.status, from)
    ensures r.goal.Some? && NoSleep(r.status)
    ensures Learned(Unenrolled, r.status).checkpoint && Learned(Unenrolled, r.status).first == Some(s.status)
  {
    assert r.status[0].reply == Ok(s.status);
  }

  /** The work of a round, between the reading of the clock and the sleep. */
  lemma WorkTold(s: Script, time: real, work: seq<Event>, pause: seq<Event>, from: nat)
    requires Told(s, [Shown(time)] + work + pause, from)
    ensures Told(s, work, from + 1)
  {
    ToldParts(s, [Shown(time)] + work, pause, from);
    ToldParts(s, [Shown(time)], work, from);
  }

  lemma WorkNoSleep(time: real, work: seq<Event>)
    requires NoSleep(work)
    ensures NoSleep([Shown(time)] + work + [])
  {
  }

  lemma RoundTold(s: Script, r: Round, from: nat)
    requires Told(s, r.Trace(), from)
    ensures Told(s, r.status, from + 1)
    ensures r.goal.Some? ==> Told(s, r.goal.value.Trace(), from + 1 + |r.status|)
  {
    WorkTold(s, r.time, r.Work(), r.Pause(), from);
    if r.goal.Some? {
      ToldParts(s, r.status, r.goal.value.Trace(), from + 1);
    }
  }

  lemma RoundWorks(s: Script, options: Options, r: Round, from: nat)
    requires StatusGood(s, options) && PauseGood(s)
    requires r.Lawful(options, s.thread, Unenrolled) && Told(s, r.Trace(), from) && from >= ACTIVATION
    ensures r.goal.Some? && r.Done() && !r.again && NoSleep(r.status) && NoSleep(r.goal.value.Trace())
    ensures Learned(Unenrolled, r.status).first == Some(s.status)
  {
    RoundTold(s, r, from);
    StatusWorks(s, options, r, from + 1);
    PauseWorks(s, options, r.goal.value, r.again, from + 1 + |r.status|);
  }

  lemma RoundNoSleep(r: Round)
    requires r.goal.Some? && !r.again && NoSleep(r.status) && NoSleep(r.goal.value.Trace())
    ensures NoSleep(r.Trace())
  {
    NoSleepOn(r.status, r.goal.value.Trace());
    WorkNoSleep(r.time, r.Work());
  }

  /** The first round knows nothing yet, and what follows it follows because it went on. */
  lemma {:induction false} FirstRound(options: Options, thread: Json, end: real, rounds: seq<Round>) returns (rest: seq<Event>)
    requires Going(options, thread, end, rounds) && rounds != []
    ensures rounds[0].Lawful(options, thread, Unenrolled)
    ensures |rounds| > 1 ==> rounds[0].again
    ensures FlatRounds(rounds) == rounds[0].Trace() + rest
    ensures |rounds| == 1 ==> rest == []
  {
    var before, last := rounds[..|rounds| - 1], rounds[|rounds| - 1];
    if before == [] {
      rest := [];
      assert FlatRounds(before) == [];
    } else {
      var more := FirstRound(options, thread, end, before);
      rest := more + last.Trace();
      Regroup(before[0].Trace(), more, last.Trace());
    }
  }

  lemma PollsTold(s: Script, h: Polls, rest: seq<Event>, from: nat)
    requires Told(s, h.Trace(), from) && h.rounds != [] && FlatRounds(h.rounds) == h.rounds[0].Trace() + rest
    ensures Told(s, h.rounds[0].Trace(), from)
  {
    ToldParts(s, FlatRounds(h.rounds), TooLate(h.late), from);
    ToldParts(s, h.rounds[0].Trace(), rest, from);
  }

  lemma OnlyRound(h: Polls, r: Round)
    requires h.rounds == [r] && h.late.None?
    ensures h.Trace() == r.Trace() && h.Done() == r.Done()
    ensures Known(h.rounds) == Learned(Unenrolled, r.status)
  {
    assert [r][..0] == [];
    OneMoreRound([], r);
  }

  /** A loop whose first round does not go on has no other, and is not left for lateness. */
  lemma StopsAtOnce(h: Polls, options: Options, thread: Json, end: real)
    requires h.Lawful(options, thread, end) && h.rounds != [] && !h.rounds[0].again
    ensures h.late.None? && h.rounds == [h.rounds[0]]
  {
    var rest := FirstRound(options, thread, end, h.rounds);
  }

  lemma PollsWork(s: Script, options: Options, h: Polls, end: real, from: nat)
    requires StatusGood(s, options) && PauseGood(s)
    requires h.Lawful(options, s.thread, end) && Told(s, h.Trace(), from) && from >= ACTIVATION
    requires h.late.Some? && h.rounds == [] ==> h.late.value < end
    ensures h.Done() && h.First() == s.status && NoSleep(h.Trace())
  {
    var rest := FirstRound(options, s.thread, end, h.rounds);
    PollsTold(s, h, rest, from);
    RoundWorks(s, options, h.rounds[0], from);
    RoundNoSleep(h.rounds[0]);
    StopsAtOnce(h, options, s.thread, end);
    OnlyRound(h, h.rounds[0]);
  }

  // ---------------------------------------------------------------- operator's turn

  /** The round is done, and nothing in it sleeps. */
  ghost predicate DoneAtOnce(r: Wait) {
    r.Done() && !r.again && NoSleep([r.read]) && NoSleep(r.check.value)
  }

  lemma CheckWorks(s: Script, r: Wait, from: nat)
    requires TurnGood(s) && r.Lawful(s.thread, s.operator) && Told(s, [r.read], from)
    requires from >= ACTIVATION && (r.check.Some? ==> Told(s, r.check.value, from + 1))
    ensures DoneAtOnce(r)
  {
    assert [r.read][0].reply == Ok(s.native) && TurnCompleted(Ok(s.native), s.operator);
    assert r.check.Some? ==> r.check.value[0].reply == Ok(s.paused);
  }

  lemma WaitTold(s: Script, r: Wait, from: nat)
    requires Told(s, r.Trace(), from)
    ensures Told(s, [r.read], from + 1) && (r.check.Some? ==> Told(s, r.check.value, from + 2))
  {
    WorkTold(s, r.time, r.Work(), r.Pause(), from);
    if r.check.Some? {
      ToldParts(s, [r.read], r.check.value, from + 1);
    }
  }

  lemma WaitNoSleep(r: Wait)
    requires DoneAtOnce(r)
    ensures r.Done() && !r.again && NoSleep(r.Trace())
  {
    NoSleepOn([r.read], r.check.value);
    WorkNoSleep(r.time, r.Work());
  }

  lemma {:induction false} FirstWait(thread: Json, operator: Json, end: real, rounds: seq<Wait>) returns (rest: seq<Event>)
    requires Waiting(thread, operator, end, rounds) && rounds != []
    ensures rounds[0].Lawful(thread, operator)
    ensures |rounds| > 1 ==> rounds[0].again
    ensures FlatWaits(rounds) == rounds[0].Trace() + rest
  {
    var before, last := rounds[..|rounds| - 1], rounds[|rounds| - 1];
    if before == [] {
      rest := [];
      assert FlatWaits(before) == [];
    } else {
      var more := FirstWait(thread, operator, end, before);
      rest := more + last.Trace();
      Regroup(before[0].Trace(), more, last.Trace());
    }
  }

  lemma OnlyWait(h: Waits, r: Wait)
    requires h.rounds == [r] && h.late.None?
    ensures h.Trace() == r.Trace() && h.Done() == r.Done()
  {
    assert [r][..0] == [];
    OneMoreWait([], r);
  }

  lemma WaitStopsAtOnce(h: Waits, thread: Json, operator: Json, end: real)
    requires h.Lawful(thread, operator, end) && h.rounds != [] && !h.rounds[0].again
    ensures h.late.None? && h.rounds == [h.rounds[0]]
  {
    var rest := FirstWait(thread, operator, end, h.rounds);
  }

  lemma FirstWaitTold(s: Script, h: Waits, end: real, from: nat)
    requires Waiting(s.thread, s.operator, end, h.rounds) && h.rounds != [] && Told(s, h.Trace(), from)
    ensures Told(s, [h.rounds[0].read], from + 1)
    ensures h.rounds[0].check.Some? ==> Told(s, h.rounds[0].check.value, from + 2)
  {
    var rest := FirstWait(s.thread, s.operator, end, h.rounds);
    ToldParts(s, FlatWaits(h.rounds), TooLate(h.late), from);
    ToldParts(s, h.rounds[0].Trace(), rest, from);
    WaitTold(s, h.rounds[0], from);
  }

  lemma FirstWaitWorks(s: Script, rounds: seq<Wait>, end: real, from: nat)
    requires TurnGood(s) && Waiting(s.thread, s.operator, end, rounds) && rounds != [] && from >= ACTIVATION
    requires Told(s, [rounds[0].read], from) && (rounds[0].check.Some? ==> Told(s, rounds[0].check.value, from + 1))
    ensures DoneAtOnce(rounds[0])
  {
    var rest := FirstWait(s.thread, s.operator, end, rounds);
    CheckWorks(s, rounds[0], from);
  }

  lemma WaitsWork(s: Script, h: Waits, end: real, from: nat)
    requires TurnGood(s) && h.Lawful(s.thread, s.operator, end) && Told(s, h.Trace(), from) && from >= ACTIVATION
    requires h.late.Some? && h.rounds == [] ==> h.late.value < end
    ensures h.Done() && NoSleep(h.Trace())
  {
    FirstWaitTold(s, h, end, from);
    FirstWaitWorks(s, h.rounds, end, from + 1);
    WaitNoSleep(h.rounds[0]);
    WaitStopsAtOnce(h, s.thread, s.operator, end);
    OnlyWait(h, h.rounds[0]);
  }

  // ----------------------------------------------------------------------- accounting

  lemma ReconcilesAtOnce(s: Script, options: Options, r: Audit, created: Result<Json>, from: nat)
    requires FinalGood(s, options) && r.Lawful(options, s.thread, s.status, created) && created.Ok?
    requires Told(s, r.events, from) && (r.saved.Some? ==> Told(s, [r.saved.value], from + |r.events|))
    ensures r.Done() && !r.again && r.Status() == s.status
  {
    assert |r.events| > 0 ==> r.events[0].reply == Ok(s.replay);
    assert |r.events| > 1 ==> r.events[1].reply == Ok(s.status);
    assert r.saved.Some? ==> [r.saved.value][0].reply == Ok(Null);
  }

  lemma AuditWorks(s: Script, options: Options, r: Audit, created: Result<Json>, from: nat)
    requires FinalGood(s, options) && r.Lawful(options, s.thread, s.status, created) && created.Ok? && Told(s, r.Trace(), from)
    ensures r.Done() && !r.again && r.Status() == s.status
  {
    WorkTold(s, r.time, r.Work(), r.Pause(), from);
    if r.saved.Some? {
      ToldParts(s, r.events, [r.saved.value], from + 1);
    }
    ReconcilesAtOnce(s, options, r, created, from + 1);
  }

  lemma {:induction false} FirstAudit(options: Options, thread: Json, first: Json, created: Result<Json>, end: real, rounds: seq<Audit>)
    returns (rest: seq<Event>)
    requires Auditing(options, thread, first, created, end, rounds) && rounds != []
    ensures rounds[0].Lawful(options, thread, first, created)
    ensures |rounds| > 1 ==> rounds[0].again
    ensures FlatAudits(rounds) == rounds[0].Trace() + rest
  {
    var before, last := rounds[..|rounds| - 1], rounds[|rounds| - 1];
    if before == [] {
      rest := [];
      assert FlatAudits(before) == [];
    } else {
      var more := FirstAudit(options, thread, first, created, end, before);
      rest := more + last.Trace();
      Regroup(before[0].Trace(), more, last.Trace());
    }
  }

  lemma AuditStopsAtOnce(h: Audits, options: Options, thread: Json, first: Json, created: Result<Json>, end: real)
    requires h.Lawful(options, thread, first, created, end) && h.rounds != [] && !h.rounds[0].again
    ensures h.late.None? && h.rounds == [h.rounds[0]]
  {
    var rest := FirstAudit(options, thread, first, created, end, h.rounds);
  }

  lemma AuditsWork(s: Script, options: Options, h: Audits, created: Result<Json>, end: real, from: nat)
    requires FinalGood(s, options) && h.Lawful(options, s.thread, s.status, created, end) && created.Ok? && Told(s, h.Trace(), from)
    requires h.late.Some? && h.rounds == [] ==> h.late.value < end
    ensures h.Done() && h.Final() == s.status
  {
    var rest := FirstAudit(options, s.thread, s.status, created, end, h.rounds);
    ToldParts(s, FlatAudits(h.rounds), TooLate(h.late), from);
    ToldParts(s, h.rounds[0].Trace(), rest, from);
    AuditWorks(s, options, h.rounds[0], created, from);
    AuditStopsAtOnce(h, options, s.thread, s.status, created, end);
  }

  // ------------------------------------------------------------- in the whole history

  /** The whole history, of which `events` is a part, is genuine, and nothing slept before. */
  ghost predicate InContext(s: Script, before: seq<Event>, events: seq<Event>, after: seq<Event>) {
    AllGenuine(ServerOf(s), NoTime(), before + events + after) && NoSleep(before)
  }

  lemma ContextTells(s: Script, before: seq<Event>, events: seq<Event>, after: seq<Event>)
    requires InContext(s, before, events, after)
    ensures Told(s, events, |before|)
  {
    GenuineIsTold(s, before + events + after);
    ToldParts(s, before + events, after, 0);
    ToldParts(s, before, events, 0);
  }

  /** The part after the first one, once nothing slept in that. */
  lemma ContextMoves(s: Script, before: seq<Event>, a: seq<Event>, b: seq<Event>, after: seq<Event>)
    requires InContext(s, before, a + b, after)
    ensures InContext(s, before, a, b + after)
    ensures NoSleep(a) ==> InContext(s, before + a, b, after)
  {
    assert before + (a + b) + after == before + a + (b + after) == before + a + b + after;
    if NoSleep(a) {
      NoSleepOn(before, a);
    }
  }

  lemma SetupInContext(s: Script, options: Options, before: seq<Event>, h: SetupHistory, after: seq<Event>)
    requires SetupGood(s, options) && h.Lawful(options) && InContext(s, before, h.Trace(), after) && |before| == 1
    ensures h.Ready() && |h.Trace()| == ACTIVATION && NoSleep(h.Trace())
    ensures h.Thread() == Some(s.thread) && h.Owned() == s.thread
    ensures Ok(h.Goal()) == GoalIn(Ok(s.blocked))
  {
    ContextTells(s, before, h.Trace(), after);
    SetupReady(s, options, h);
  }

  lemma PollsInContext(s: Script, options: Options, before: seq<Event>, h: Polls, after: seq<Event>, end: real)
    requires StatusGood(s, options) && PauseGood(s) && end > 0.0
    requires h.Lawful(options, s.thread, end) && InContext(s, before, h.Trace(), after) && |before| >= ACTIVATION
    ensures h.Done() && h.First() == s.status && NoSleep(h.Trace())
  {
    ContextTells(s, before, h.Trace(), after);
    if h.late.Some? && h.rounds == [] {
      assert h.Trace() == [Shown(h.late.value)];
      ShownIsZero(s, before, h.late.value, after);
    }
    PollsWork(s, options, h, end, |before|);
  }

  lemma WaitsInContext(s: Script, before: seq<Event>, h: Waits, after: seq<Event>, end: real)
    requires TurnGood(s) && end > 0.0
    requires h.Lawful(s.thread, s.operator, end) && InContext(s, before, h.Trace(), after) && |before| >= ACTIVATION
    ensures h.Done() && NoSleep(h.Trace())
  {
    ContextTells(s, before, h.Trace(), after);
    if h.late.Some? && h.rounds == [] {
      assert h.Trace() == [Shown(h.late.value)];
      ShownIsZero(s, before, h.late.value, after);
    }
    WaitsWork(s, h, end, |before|);
  }

  lemma AuditsInContext(s: Script, options: Options, before: seq<Event>, h: Audits, after: seq<Event>, created: Result<Json>, end: real)
    requires FinalGood(s, options) && created.Ok? && end > 0.0
    requires h.Lawful(options, s.thread, s.status, created, end) && InContext(s, before, h.Trace(), after)
    ensures h.Done() && h.Final() == s.status
  {
    ContextTells(s, before, h.Trace(), after);
    if h.late.Some? && h.rounds == [] {
      assert h.Trace() == [Shown(h.late.value)];
      ShownIsZero(s, before, h.late.value, after);
    }
    AuditsWork(s, options, h, created, end, |before|);
  }

  lemma AuditInContext(s: Script, options: Options, before: seq<Event>, h: AuditHistory, after: seq<Event>, created: Result<Json>, end: real)
    requires FinalGood(s, options) && created.Ok? && end > 0.0
    requires h.Lawful(options, s.thread, s.status, created, end) && InContext(s, before, h.Trace(), after)
    ensures h.audits.Done() && h.audits.Final() == s.status
  {
    ContextMoves(s, before, [Shown(h.begun)], h.audits.Trace(), after);
    ShownIsZero(s, before, h.begun, h.audits.Trace() + after);
    AuditsInContext(s, options, before + [Shown(h.begun)], h.audits, after, created, Earlier(end, h.begun + 5.0));
  }

  lemma ReadInContext(s: Script, options: Options, before: seq<Event>, h: FinalRead, after: seq<Event>, created: Result<Json>, end: real)
    requires FinalGood(s, options) && created.Ok? && end > 0.0
    requires h.Lawful(options, s.thread, s.status, created, end) && InContext(s, before, h.Trace(), after)
    ensures h.Done(options, s.status) && h.Final() == s.status
  {
    ContextTells(s, before, h.Trace(), after);
    assert h.Trace()[0] == h.status;
    if h.audit.Some? {
      ContextMoves(s, before, [h.status], h.audit.value.Trace(), after);
      AuditInContext(s, options, before + [h.status], h.audit.value, after, created, end);
    }
  }

  lemma AccountInContext(s: Script, options: Options, before: seq<Event>, h: Account, after: seq<Event>, created: Result<Json>, end: real)
    requires FinalGood(s, options) && created.Ok? && end > 0.0
    requires h.Lawful(options, s.thread, s.status, created, end) && InContext(s, before, h.Trace(), after)
    ensures h.Done()
  {
    ContextTells(s, before, h.Trace(), after);
    if h.saved.Some? {
      ContextMoves(s, before, h.read.Trace(), [h.saved.value], after);
      assert h.Trace()[|h.read.Trace()|] == h.saved.value;
    }
    ReadInContext(s, options, before, h.read, if h.saved.Some? then [h.saved.value] + after else after, created, end);
  }

  lemma ReplyInContext(s: Script, options: Options, before: seq<Event>, h: ReplyHistory, after: seq<Event>, created: Result<Json>, end: real)
    requires TurnGood(s) && FinalGood(s, options) && created.Ok? && end > 0.0 && |before| >= ACTIVATION
    requires h.Lawful(options, s.thread, s.operator, s.status, created, end) && InContext(s, before, h.Trace(), after)
    ensures h.Done()
  {
    if h.account.Some? {
      ContextMoves(s, before, h.waits.Trace(), h.account.value.Trace(), after);
    }
    WaitsInContext(s, before, h.waits, if h.account.Some? then h.account.value.Trace() + after else after, end);
    AccountInContext(s, options, before + h.waits.Trace(), h.account.value, after, created, end);
  }

  lemma TurnInContext(s: Script, options: Options, before: seq<Event>, h: OperatorHistory, after: seq<Event>, created: Result<Json>, end: real)
    requires TurnGood(s) && FinalGood(s, options) && created.Ok? && end > 0.0 && |before| >= ACTIVATION
    requires h.Lawful(options, s.thread, s.status, created, end) && InContext(s, before, h.Trace(), after)
    ensures h.Done()
  {
    ContextTells(s, before, h.Trace(), after);
    assert h.Trace()[0] == h.start;
    assert OperatorTurn(h.start.reply) == Ok(s.operator);
    ContextMoves(s, before, [h.start], h.rest.value.Trace(), after);
    ReplyInContext(s, options, before + [h.start], h.rest.value, after, created, end);
  }

  lemma WatchInContext(s: Script, options: Options, before: seq<Event>, h: WatchHistory, after: seq<Event>, goal: Json, end: real)
    requires Good(s, options) && Ok(goal) == GoalIn(Ok(s.blocked)) && end > 0.0 && |before| >= ACTIVATION
    requires h.Lawful(options, s.thread, goal, end) && InContext(s, before, h.Trace(), after)
    ensures h.Done()
  {
    if h.operator.Some? {
      ContextMoves(s, before, h.polls.Trace(), h.operator.value.Trace(), after);
    }
    PollsInContext(s, options, before, h.polls, if h.operator.Some? then h.operator.value.Trace() + after else after, end);
    TurnInContext(s, options, before + h.polls.Trace(), h.operator.value, after, Index(goal, Word.CreatedAt), end);
  }

  lemma WorkInContext(s: Script, options: Options, before: seq<Event>, setup: SetupHistory, watched: seq<Event>, after: seq<Event>)
    requires Good(s, options) && |before| == 1
    requires setup.Lawful(options) && InContext(s, before, setup.Trace() + watched, after)
    ensures setup.Ready() && setup.Thread() == Some(s.thread) && setup.Owned() == s.thread && |setup.Trace()| == ACTIVATION
    ensures Ok(setup.Goal()) == GoalIn(Ok(s.blocked))
    ensures InContext(s, before + setup.Trace(), watched, after)
  {
    ContextMoves(s, before, setup.Trace(), watched, after);
    SetupInContext(s, options, before, setup, watched + after);
  }

  // -------------------------------------------------------------------------- cleanup

  lemma OneEmptyPage(s: Script, trace: seq<Event>, left: nat)
    requires PageOf(Ok(s.page)) == Ok(Page([], Null)) && left > 0
    ensures TurnsFrom(ServerOf(s), trace, s.thread, None, {}, [], left)
         == Step(Asked(ServerOf(s), trace, TurnsList(s.thread, None)), Ok([]))
  {
    var none: seq<Json> := [];
    assert none + none == none;
  }

  lemma ListsNoTurns(s: Script, trace: seq<Event>)
    requires CleanupGood(s)
    ensures AllTurns(ServerOf(s), trace, s.thread).value == Ok([])
    ensures |AllTurns(ServerOf(s), trace, s.thread).trace| >= |trace|
  {
    OneEmptyPage(s, trace, PAGE_BOUND);
  }

  lemma ReadsBack(s: Script, trace: seq<Event>)
    requires CleanupGood(s) && |trace| >= ACTIVATION
    ensures ReadBack(ServerOf(s), trace, s.thread).value.Ok?
  {
    ListsNoTurns(s, trace);
    assert AnyRunning([]) == Ok(false);
  }

  lemma EndsNothing(s: Script, trace: seq<Event>)
    requires CleanupGood(s) && |trace| >= ACTIVATION
    ensures EndProcesses(ServerOf(s), trace, s.thread, []).1.Verified()
  {
    ReadsBack(s, Asked(ServerOf(s), trace, TerminalsList(s.thread)));
  }

  lemma CleanedVerified(s: Script, trace: seq<Event>)
    requires CleanupGood(s) && |trace| >= ACTIVATION
    ensures Cleaned(ServerOf(s), trace, s.thread).1.Verified()
  {
    var paused := Asked(ServerOf(s), trace, GoalGet(s.thread));
    assert PauseGoal(ServerOf(s), trace, s.thread) == Step(paused, Ok(()));
    ListsNoTurns(s, paused);
    EndsNothing(s, AllTurns(ServerOf(s), paused, s.thread).trace);
  }

  // -------------------------------------------------------------------------- the run

  /** What follows the setup. */
  ghost function WatchedIn(work: WorkHistory): seq<Event> {
    if work.watch.Some? then work.watch.value.Trace() else []
  }

  lemma WorkSplits(work: WorkHistory)
    ensures work.Trace() == work.setup.Trace() + WatchedIn(work)
  {
  }

  /** Only the reading of the clock comes before the work, and it shows no time. */
  lemma ContextOfWork(s: Script, begun: real, work: seq<Event>, cleanup: seq<Event>)
    requires AllGenuine(ServerOf(s), NoTime(), [Shown(begun)] + work + cleanup)
    ensures begun == 0.0 && InContext(s, [Shown(begun)], work, cleanup)
  {
    assert [] + [Shown(begun)] + (work + cleanup) == [Shown(begun)] + work + cleanup;
    ShownIsZero(s, [], begun, work + cleanup);
  }

  lemma WorkIsDone(s: Script, options: Options, begun: real, work: WorkHistory, cleanup: seq<Event>)
    requires Good(s, options) && work.Lawful(options, EndOf(begun, options))
    requires AllGenuine(ServerOf(s), NoTime(), [Shown(begun)] + work.Trace() + cleanup)
    ensures work.Done() && work.setup.Thread() == Some(s.thread) && work.setup.Ready() && |work.setup.Trace()| == ACTIVATION
  {
    WorkSplits(work);
    ContextOfWork(s, begun, work.Trace(), cleanup);
    WorkInContext(s, options, [Shown(begun)], work.setup, WatchedIn(work), cleanup);
    WatchInContext(s, options, [Shown(begun)] + work.setup.Trace(), work.watch.value, cleanup, work.setup.Goal(), EndOf(begun, options));
  }

  /** In a good world, whatever its parts, the run passes, and it cleans up if the thread has
      an identity. */
  method RunPasses(s: Script, options: Options) returns (result: RunResult, ghost h: RunHistory)
    requires Good(s, options)
    ensures result.pass && result.dispatched && result.thread == Some(s.thread)
    ensures result.cleanup.Some? <==> Truthy(s.thread)
    ensures result.cleanup.Some? ==> result.cleanup.value.Verified()
    ensures result.cleanup.None? ==> h.cleanup == []
    ensures h.Lawful(options) && h.work.Done()
  {
    var w := new World(ServerOf(s), NoTime());
    result, h := Run(w, options);
    WorkIsDone(s, options, h.begun, h.work, h.cleanup);
    WorkSplits(h.work);
    if Truthy(s.thread) {
      CleanedVerified(s, h.Worked());
    }
  }
}
