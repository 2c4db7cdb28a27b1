/** What every run has in common, and what a pass guarantees, on the whole history. */
module AcceptanceProperties {
  import Word
  import opened Values
  import opened Native
  import opened Receipts
  import opened AcceptanceSetup
  import opened AcceptancePolling
  import opened AcceptanceOperator
  import opened Acceptance

  // ---------------------------------------------------------- dispatch at most once

  /** The three calls that start work, in their order; everything else is 0. */
  function Rank(call: Call): nat {
    match call
    case ThreadStart => 1
    case GoalActivate(_) => 2
    case TurnStart(_) => 3
    case _ => 0
  }

  /** The call is about `thread`, or about no existing thread at all. */
  predicate Names(call: Call, thread: Json) {
    match call
    case ThreadStart => true
    case HistoryHome(_) => true
    case CheckpointFile => true
    case Save(_) => true
    case Clock => true
    case Sleep => true
    case _ => call.thread == thread
  }

  /** Work is started by calls of strictly increasing rank from `lo` up to `hi`, so by
      each at most once, and only on `thread`. */
  ghost predicate Ordered(events: seq<Event>, thread: Json, lo: nat, hi: nat) {
    && (forall i | 0 <= i < |events| ::
          && Names(events[i].call, thread)
          && (Rank(events[i].call) == 0 || lo <= Rank(events[i].call) <= hi))
    && (forall i, j | 0 <= i < j < |events| && Rank(events[i].call) > 0 && Rank(events[j].call) > 0 ::
          Rank(events[i].call) < Rank(events[j].call))
  }

  /** No work is started, and no other thread is named. */
  ghost predicate Quiet(events: seq<Event>, thread: Json) {
    forall i | 0 <= i < |events| :: Names(events[i].call, thread) && Rank(events[i].call) == 0
  }

  lemma OrderedOn(a: seq<Event>, b: seq<Event>, thread: Json, lo: nat, mid: nat, hi: nat)
    requires Ordered(a, thread, lo, mid) && Ordered(b, thread, mid + 1, hi)
    requires lo <= mid + 1 && mid <= hi
    ensures Ordered(a + b, thread, lo, hi)
  {
  }

  lemma OrderedQuiet(a: seq<Event>, b: seq<Event>, thread: Json, lo: nat, hi: nat)
    requires Ordered(a, thread, lo, hi) && Quiet(b, thread)
    ensures Ordered(a + b, thread, lo, hi)
  {
  }

  lemma QuietOrdered(a: seq<Event>, b: seq<Event>, thread: Json, lo: nat, hi: nat)
    requires Quiet(a, thread) && Ordered(b, thread, lo, hi)
    ensures Ordered(a + b, thread, lo, hi)
  {
  }

  lemma QuietOn(a: seq<Event>, b: seq<Event>, thread: Json)
    requires Quiet(a, thread) && Quiet(b, thread)
    ensures Quiet(a + b, thread)
  {
  }

  // ------------------------------------------------------------- phase by phase: setup

  lemma DispatchOrdered(h: DispatchHistory, options: Options, thread: Json)
    requires h.Lawful(options, thread)
    ensures Ordered(h.Trace(), thread, 2, 2)
  {
    assert Quiet(h.goal, thread);
    if h.activation.Some? {
      QuietOrdered(h.goal, [h.activation.value], thread, 2, 2);
    }
  }

  lemma ControllerOrdered(h: ControllerHistory, options: Options, started: Json, thread: Json)
    requires h.Lawful(options, started, thread)
    ensures Ordered(h.Trace(), thread, 2, 2)
  {
    assert Quiet(h.controller, thread);
    if h.dispatch.Some? {
      DispatchOrdered(h.dispatch.value, options, thread);
      QuietOrdered(h.controller, h.dispatch.value.Trace(), thread, 2, 2);
    }
  }

  lemma PreparationOrdered(h: Preparation, options: Options, started: Json, thread: Json)
    requires h.Lawful(options, started, thread)
    ensures Ordered(h.Trace(), thread, 2, 2)
  {
    assert Quiet(h.mcp, thread);
    if h.rest.Some? {
      ControllerOrdered(h.rest.value, options, started, thread);
      QuietOrdered(h.mcp, h.rest.value.Trace(), thread, 2, 2);
    }
  }

  lemma SetupOrdered(h: SetupHistory, options: Options)
    requires h.Lawful(options)
    ensures Ordered(h.Trace(), h.Owned(), 1, 2)
  {
    assert Ordered(h.start, h.Owned(), 1, 1);
    if h.rest.Some? {
      PreparationOrdered(h.rest.value, options, h.Started(), h.Owned());
      OrderedOn(h.start, h.rest.value.Trace(), h.Owned(), 1, 1, 2);
    } else {
      assert h.Trace() == h.start;
    }
  }

  // ------------------------------------------------------------ phase by phase: loops

  lemma ClockIsQuiet(time: real, thread: Json)
    ensures Quiet([Shown(time)], thread)
  {
  }

  /** Reading the clock and sleeping add nothing to a round's work. */
  lemma RoundedQuiet(time: real, work: seq<Event>, again: bool, thread: Json)
    requires Quiet(work, thread)
    ensures Quiet([Shown(time)] + work + if again then [Slept] else [], thread)
  {
    ClockIsQuiet(time, thread);
    QuietOn([Shown(time)], work, thread);
    QuietOn([Shown(time)] + work, if again then [Slept] else [], thread);
  }

  lemma RoundQuiet(r: Round, options: Options, thread: Json, p: Progress)
    requires r.Lawful(options, thread, p)
    ensures Quiet(r.Trace(), thread)
  {
    assert Quiet(r.status, thread);
    if r.goal.Some? {
      GoalQuiet(r.goal.value, thread, Learned(p, r.status).checkpoint, r.again);
      QuietOn(r.status, r.goal.value.Trace(), thread);
    }
    RoundedQuiet(r.time, r.Work(), r.again, thread);
  }

  lemma GoalQuiet(g: GoalHistory, thread: Json, acknowledged: bool, again: bool)
    requires g.Lawful(thread, acknowledged, again)
    ensures Quiet(g.Trace(), thread)
  {
    assert Quiet(g.goal, thread);
    if g.file.Some? {
      assert Quiet(g.file.value, thread);
      QuietOn(g.goal, g.file.value, thread);
    }
  }

  lemma {:induction false} GoingQuiet(options: Options, thread: Json, end: real, rounds: seq<Round>)
    requires Going(options, thread, end, rounds)
    ensures Quiet(FlatRounds(rounds), thread)
  {
    if rounds != [] {
      var before, last := rounds[..|rounds| - 1], rounds[|rounds| - 1];
      GoingQuiet(options, thread, end, before);
      RoundQuiet(last, options, thread, Known(before));
      QuietOn(FlatRounds(before), last.Trace(), thread);
    }
  }

  lemma PollsQuiet(h: Polls, options: Options, thread: Json, end: real)
    requires h.Lawful(options, thread, end)
    ensures Quiet(h.Trace(), thread)
  {
    GoingQuiet(options, thread, end, h.rounds);
    QuietOn(FlatRounds(h.rounds), TooLate(h.late), thread);
  }

  lemma WaitQuiet(r: Wait, thread: Json, operator: Json)
    requires r.Lawful(thread, operator)
    ensures Quiet(r.Trace(), thread)
  {
    assert Quiet([r.read], thread);
    if r.check.Some? {
      assert Quiet(r.check.value, thread);
      QuietOn([r.read], r.check.value, thread);
    }
    RoundedQuiet(r.time, r.Work(), r.again, thread);
  }

  lemma {:induction false} WaitingQuiet(thread: Json, operator: Json, end: real, rounds: seq<Wait>)
    requires Waiting(thread, operator, end, rounds)
    ensures Quiet(FlatWaits(rounds), thread)
  {
    if rounds != [] {
      var before, last := rounds[..|rounds| - 1], rounds[|rounds| - 1];
      WaitingQuiet(thread, operator, end, before);
      WaitQuiet(last, thread, operator);
      QuietOn(FlatWaits(before), last.Trace(), thread);
    }
  }

  lemma AuditQuiet(r: Audit, options: Options, thread: Json, first: Json, created: Result<Json>)
    requires r.Lawful(options, thread, first, created)
    ensures Quiet(r.Trace(), thread)
  {
    assert Quiet(r.events, thread);
    if r.saved.Some? {
      assert Quiet([r.saved.value], thread);
      QuietOn(r.events, [r.saved.value], thread);
    }
    RoundedQuiet(r.time, r.Work(), r.again, thread);
  }

  lemma {:induction false} AuditingQuiet(options: Options, thread: Json, first: Json, created: Result<Json>, end: real, rounds: seq<Audit>)
    requires Auditing(options, thread, first, created, end, rounds)
    ensures Quiet(FlatAudits(rounds), thread)
  {
    if rounds != [] {
      var before, last := rounds[..|rounds| - 1], rounds[|rounds| - 1];
      AuditingQuiet(options, thread, first, created, end, before);
      AuditQuiet(last, options, thread, first, created);
      QuietOn(FlatAudits(before), last.Trace(), thread);
    }
  }

  lemma AuditsQuiet(h: AuditHistory, options: Options, thread: Json, first: Json, created: Result<Json>, end: real)
    requires h.Lawful(options, thread, first, created, end)
    ensures Quiet(h.Trace(), thread)
  {
    AuditingQuiet(options, thread, first, created, Earlier(end, h.begun + 5.0), h.audits.rounds);
    QuietOn(FlatAudits(h.audits.rounds), TooLate(h.audits.late), thread);
    ClockIsQuiet(h.begun, thread);
    QuietOn([Shown(h.begun)], h.audits.Trace(), thread);
  }

  lemma FinalReadQuiet(h: FinalRead, options: Options, thread: Json, first: Json, created: Result<Json>, end: real)
    requires h.Lawful(options, thread, first, created, end)
    ensures Quiet(h.Trace(), thread)
  {
    assert Quiet([h.status], thread);
    if h.audit.Some? {
      AuditsQuiet(h.audit.value, options, thread, first, created, end);
      QuietOn([h.status], h.audit.value.Trace(), thread);
    }
  }

  lemma AccountQuiet(h: Account, options: Options, thread: Json, first: Json, created: Result<Json>, end: real)
    requires h.Lawful(options, thread, first, created, end)
    ensures Quiet(h.Trace(), thread)
  {
    FinalReadQuiet(h.read, options, thread, first, created, end);
    if h.saved.Some? {
      QuietOn(h.read.Trace(), [h.saved.value], thread);
    }
  }

  lemma ReplyQuiet(h: ReplyHistory, options: Options, thread: Json, operator: Json, first: Json, created: Result<Json>, end: real)
    requires h.Lawful(options, thread, operator, first, created, end)
    ensures Quiet(h.Trace(), thread)
  {
    WaitingQuiet(thread, operator, end, h.waits.rounds);
    QuietOn(FlatWaits(h.waits.rounds), TooLate(h.waits.late), thread);
    if h.account.Some? {
      AccountQuiet(h.account.value, options, thread, first, created, end);
      QuietOn(h.waits.Trace(), h.account.value.Trace(), thread);
    }
  }

  lemma OperatorOrdered(h: OperatorHistory, options: Options, thread: Json, first: Json, created: Result<Json>, end: real)
    requires h.Lawful(options, thread, first, created, end)
    ensures Ordered(h.Trace(), thread, 3, 3)
  {
    assert Ordered([h.start], thread, 3, 3);
    if h.rest.Some? {
      ReplyQuiet(h.rest.value, options, thread, h.Operator(), first, created, end);
      OrderedQuiet([h.start], h.rest.value.Trace(), thread, 3, 3);
    }
  }

  lemma WatchOrdered(h: WatchHistory, options: Options, thread: Json, goal: Json, end: real)
    requires h.Lawful(options, thread, goal, end)
    ensures Ordered(h.Trace(), thread, 3, 3)
  {
    PollsQuiet(h.polls, options, thread, end);
    if h.operator.Some? {
      OperatorOrdered(h.operator.value, options, thread, h.polls.First(), Index(goal, Word.CreatedAt), end);
      QuietOrdered(h.polls.Trace(), h.operator.value.Trace(), thread, 3, 3);
    }
  }

  lemma WorkOrdered(h: WorkHistory, options: Options, end: real)
    requires h.Lawful(options, end)
    ensures Ordered(h.Trace(), h.setup.Owned(), 1, 3)
  {
    SetupOrdered(h.setup, options);
    if h.watch.Some? {
      WatchOrdered(h.watch.value, options, h.setup.Owned(), h.setup.Goal(), end);
      OrderedOn(h.setup.Trace(), h.watch.value.Trace(), h.setup.Owned(), 1, 2, 3);
    }
  }

  lemma CleanupIsQuiet(events: seq<Event>, thread: Json)
    requires CleansUp(events, thread)
    ensures Quiet(events, thread)
  {
  }

  /** In every run a thread is started, a goal activated and a turn started at most once
      each and in that order, and no other thread is ever named. */
  lemma WorkStartsOnce(h: RunHistory, options: Options)
    requires h.Lawful(options)
    ensures Ordered(h.Trace(), h.work.setup.Owned(), 1, 3)
  {
    var thread := h.work.setup.Owned();
    WorkOrdered(h.work, options, EndOf(h.begun, options));
    ClockIsQuiet(h.begun, thread);
    QuietOrdered([Shown(h.begun)], h.work.Trace(), thread, 1, 3);
    CleanupIsQuiet(h.cleanup, thread);
    OrderedQuiet(h.Worked(), h.cleanup, thread, 1, 3);
  }

  // ------------------------------------------------------------------ what was started

  ghost predicate Started(events: seq<Event>, rank: nat) {
    exists i | 0 <= i < |events| :: Rank(events[i].call) == rank
  }

  lemma StartedOn(a: seq<Event>, b: seq<Event>, rank: nat)
    ensures Started(a + b, rank) <==> Started(a, rank) || Started(b, rank)
  {
    if Started(a, rank) {
      var i :| 0 <= i < |a| && Rank(a[i].call) == rank;
      assert (a + b)[i] == a[i];
    }
    if Started(b, rank) {
      var i :| 0 <= i < |b| && Rank(b[i].call) == rank;
      assert (a + b)[|a| + i] == b[i];
    }
  }

  lemma QuietStartsNothing(events: seq<Event>, thread: Json, rank: nat)
    requires Quiet(events, thread) && rank > 0
    ensures !Started(events, rank)
  {
  }

  lemma OrderedStartsNothingElse(events: seq<Event>, thread: Json, lo: nat, hi: nat, rank: nat)
    requires Ordered(events, thread, lo, hi) && (0 < rank < lo || rank > hi)
    ensures !Started(events, rank)
  {
  }

  lemma DispatchStarts(h: DispatchHistory, options: Options, thread: Json)
    requires h.Lawful(options, thread)
    ensures Started(h.Trace(), 2) <==> h.Activated()
    ensures h.Activated() <==> GoalGate(thread, h.goal)
  {
    QuietStartsNothing(h.goal, thread, 2);
    if h.activation.Some? {
      StartedOn(h.goal, [h.activation.value], 2);
      assert Rank([h.activation.value][0].call) == 2;
    }
  }

  lemma ControllerStarts(h: ControllerHistory, options: Options, started: Json, thread: Json)
    requires h.Lawful(options, started, thread)
    ensures Started(h.Trace(), 2) <==> h.Activated()
    ensures h.dispatch.Some? <==> ControllerGate(started, h.controller)
  {
    QuietStartsNothing(h.controller, thread, 2);
    if h.dispatch.Some? {
      DispatchStarts(h.dispatch.value, options, thread);
      StartedOn(h.controller, h.dispatch.value.Trace(), 2);
    }
  }

  lemma PreparationStarts(h: Preparation, options: Options, started: Json, thread: Json)
    requires h.Lawful(options, started, thread)
    ensures Started(h.Trace(), 2) <==> h.Activated()
    ensures h.rest.Some? <==> McpGate(options, started, h.mcp)
  {
    QuietStartsNothing(h.mcp, thread, 2);
    if h.rest.Some? {
      ControllerStarts(h.rest.value, options, started, thread);
      StartedOn(h.mcp, h.rest.value.Trace(), 2);
    }
  }

  lemma SetupStarts(h: SetupHistory, options: Options)
    requires h.Lawful(options)
    ensures Started(h.Trace(), 2) <==> h.Activated()
    ensures h.Activated() <==> h.GatesHold(options)
  {
    assert Ordered(h.start, h.Owned(), 1, 1);
    OrderedStartsNothingElse(h.start, h.Owned(), 1, 1, 2);
    if h.rest.Some? {
      var prepared := h.rest.value;
      PreparationStarts(prepared, options, h.Started(), h.Owned());
      StartedOn(h.start, prepared.Trace(), 2);
      if prepared.rest.Some? {
        var controller := prepared.rest.value;
        ControllerStarts(controller, options, h.Started(), h.Owned());
        if controller.dispatch.Some? {
          DispatchStarts(controller.dispatch.value, options, h.Owned());
        }
      }
    } else {
      assert h.Trace() == h.start;
    }
  }

  /** What a run starts beyond its setup. */
  lemma RunStarts(h: RunHistory, options: Options, rank: nat)
    requires h.Lawful(options) && rank > 0
    ensures Started(h.Trace(), rank) <==>
              Started(h.work.setup.Trace(), rank) || (h.work.watch.Some? && Started(h.work.watch.value.Trace(), rank))
  {
    var work := h.work;
    ClockIsQuiet(h.begun, work.setup.Owned());
    CleanupIsQuiet(h.cleanup, work.setup.Owned());
    QuietStartsNothing([Shown(h.begun)], work.setup.Owned(), rank);
    QuietStartsNothing(h.cleanup, work.setup.Owned(), rank);
    if work.watch.Some? {
      StartedOn(work.setup.Trace(), work.watch.value.Trace(), rank);
    }
    StartedOn([Shown(h.begun)], work.Trace(), rank);
    StartedOn(h.Worked(), h.cleanup, rank);
  }

  /** The goal is activated exactly when every gate has held: permissions, MCP version and
      schema, history home, fresh controller, and the blocked goal read back. */
  lemma ActivatedIffGatesHold(h: RunHistory, options: Options)
    requires h.Lawful(options)
    ensures Started(h.Trace(), 2) <==> h.work.setup.GatesHold(options)
  {
    RunStarts(h, options, 2);
    SetupStarts(h.work.setup, options);
    if h.work.watch.Some? {
      WatchOrdered(h.work.watch.value, options, h.work.setup.Owned(), h.work.setup.Goal(), EndOf(h.begun, options));
      OrderedStartsNothingElse(h.work.watch.value.Trace(), h.work.setup.Owned(), 3, 3, 2);
    }
  }
}
