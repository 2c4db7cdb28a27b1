/** What a run that goes on has seen of its allowance, its checkpoint and its usage, at
    which places of the whole history. */
module AcceptanceAllowance {
  import Word
  import opened Values
  import opened Native
  import opened Receipts
  import opened Readings
  import opened AcceptanceSetup
  import opened AcceptancePolling
  import opened AcceptanceOperator
  import opened AcceptanceProperties
  import opened Acceptance

  // ------------------------------------------------------------------- status reads

  ghost predicate NoStatus(events: seq<Event>) {
    forall i | 0 <= i < |events| :: !events[i].call.ReadStatus?
  }

  /** Every status read from `from` on is qualified under `first`. */
  ghost predicate QualifiedFrom(events: seq<Event>, from: nat, options: Options, first: Json) {
    forall i | from <= i < |events| && events[i].call.ReadStatus? :: QualifiedReply(events[i].reply, options, first)
  }

  /** Every status read from `from` on has the allocation, the generation and the deadline of
      `first`, the caps of the options, a fresh controller and a qualified accounting. */
  ghost predicate AllowanceKept(events: seq<Event>, from: nat, options: Options, first: Json) {
    forall i | from <= i < |events| && events[i].call.ReadStatus? ::
      && events[i].reply.Ok?
      && SameThree(events[i].reply.value, first) && HasCaps(events[i].reply.value, options) && HasProof(events[i].reply.value)
  }

  lemma QualifiedIsKept(events: seq<Event>, from: nat, options: Options, first: Json)
    requires QualifiedFrom(events, from, options, first)
    ensures AllowanceKept(events, from, options, first)
  {
    forall i | from <= i < |events| && events[i].call.ReadStatus?
      ensures events[i].reply.Ok? && SameThree(events[i].reply.value, first) && HasCaps(events[i].reply.value, options)
              && HasProof(events[i].reply.value)
    {
      QualifiedIs(events[i].reply.value, options, first);
    }
  }

  /** Every status read at `from` or later, but before `to`, said that the thread is not
      enrolled yet. */
  ghost predicate PendingFrom(events: seq<Event>, from: nat, to: nat) {
    forall i | from <= i < to && i < |events| && events[i].call.ReadStatus? ::
      events[i].reply.Ok? && NotYetEnrolled(events[i].reply.value)
  }

  /** Of all statuses read from `from` on, `first` is the first that does not say so; it
      enrolls, and from there on all are qualified under it. */
  ghost predicate EnrolledAt(events: seq<Event>, from: nat, thread: Json, options: Options, first: Json, enrolled: nat) {
    && from <= enrolled < |events|
    && PendingFrom(events, from, enrolled)
    && events[enrolled] == Did(ReadStatus(thread), Ok(first))
    && Enrolls(first, options)
    && QualifiedFrom(events, enrolled, options, first)
  }

  function UsedIn(reply: Result<Json>): Json {
    if reply.Ok? then Used(reply.value) else Null
  }

  /** The usage reported from `from` on: integers that never decrease, `most` at most. */
  ghost predicate UsageGrows(events: seq<Event>, from: nat, most: int) {
    && (forall i | from <= i < |events| && events[i].call.ReadStatus? ::
          UsedIn(events[i].reply).Int? && 0 <= UsedIn(events[i].reply).n <= most)
    && (forall i, j | from <= i < j < |events| && events[i].call.ReadStatus? && events[j].call.ReadStatus? ::
          UsedIn(events[i].reply).Int? && UsedIn(events[j].reply).Int? && UsedIn(events[i].reply).n <= UsedIn(events[j].reply).n)
  }

  ghost predicate AcknowledgedAt(events: seq<Event>, acknowledged: nat) {
    && acknowledged < |events|
    && events[acknowledged].call.ReadStatus? && events[acknowledged].reply.Ok?
    && CheckpointAcknowledged(events[acknowledged].reply.value)
  }

  /** The progress tells of events at these places. */
  ghost predicate Tracks(events: seq<Event>, thread: Json, options: Options, p: Progress, enrolled: nat, acknowledged: nat) {
    && p.lastUsed >= 0
    && (p.first.None? ==> PendingFrom(events, 0, |events|))
    && (p.first.Some? ==> EnrolledAt(events, 0, thread, options, p.first.value, enrolled) && UsageGrows(events, enrolled, p.lastUsed))
    && (p.checkpoint ==> p.first.Some? && AcknowledgedAt(events, acknowledged) && enrolled <= acknowledged)
  }

  lemma TracksOn(events: seq<Event>, more: seq<Event>, thread: Json, options: Options, p: Progress, enrolled: nat, acknowledged: nat)
    requires Tracks(events, thread, options, p, enrolled, acknowledged)
    requires NoStatus(more)
    ensures Tracks(events + more, thread, options, p, enrolled, acknowledged)
  {
  }

  lemma TracksStatus(events: seq<Event>, status: Json, thread: Json, options: Options, p: Progress, enrolled: nat, acknowledged: nat)
    returns (enrolled': nat, acknowledged': nat)
    requires Tracks(events, thread, options, p, enrolled, acknowledged)
    requires Acceptable(status, options, p)
    ensures Tracks(events + [Did(ReadStatus(thread), Ok(status))], thread, options, Learn(p, status), enrolled', acknowledged')
  {
    var all := events + [Did(ReadStatus(thread), Ok(status))];
    enrolled' := if p.first.None? then |events| else enrolled;
    acknowledged' := if p.checkpoint then acknowledged else |events|;
    assert all[|events|] == Did(ReadStatus(thread), Ok(status));
    assert forall i | 0 <= i < |events| :: all[i] == events[i];
  }

  // ------------------------------------------------------------------------- rounds

  /** A round is a reading of the clock, then the status, then what reads no status. */
  lemma RoundSplits(r: Round, options: Options, thread: Json, p: Progress) returns (rest: seq<Event>)
    requires r.Lawful(options, thread, p)
    ensures r.Trace() == [Shown(r.time)] + [r.status[0]] + rest && NoStatus(rest)
  {
    var goal := if r.goal.Some? then r.goal.value.Trace() else [];
    if r.goal.Some? {
      GoalReadsNoStatus(r.goal.value, thread, Learned(p, r.status).checkpoint, r.again);
    }
    assert NoStatus(r.status[1..]);
    rest := AfterStatus([Shown(r.time)], r.status, goal, r.Pause());
  }

  lemma AfterStatus(shown: seq<Event>, status: seq<Event>, goal: seq<Event>, pause: seq<Event>) returns (rest: seq<Event>)
    requires status != [] && NoStatus(status[1..]) && NoStatus(goal) && NoStatus(pause)
    ensures NoStatus(rest) && shown + (status + goal) + pause == shown + [status[0]] + rest
    ensures goal == [] ==> shown + status + pause == shown + [status[0]] + rest
  {
    rest := status[1..] + goal + pause;
    assert status == [status[0]] + status[1..];
  }

  lemma GoalReadsNoStatus(g: GoalHistory, thread: Json, acknowledged: bool, again: bool)
    requires g.Lawful(thread, acknowledged, again)
    ensures NoStatus(g.Trace())
  {
    assert NoStatus(g.goal);
    if g.file.Some? {
      assert NoStatus(g.file.value);
    }
  }

  /** The loop has gone on so far, or was left at the pause. */
  ghost predicate WellSoFar(rounds: seq<Round>) {
    rounds != [] ==> var last := rounds[|rounds| - 1]; last.again || last.Done()
  }

  lemma {:induction false} RoundsTrack(options: Options, thread: Json, end: real, rounds: seq<Round>)
    returns (enrolled: nat, acknowledged: nat)
    requires Going(options, thread, end, rounds) && WellSoFar(rounds)
    ensures Tracks(FlatRounds(rounds), thread, options, Known(rounds), enrolled, acknowledged)
  {
    enrolled, acknowledged := 0, 0;
    if rounds != [] {
      var before, last := rounds[..|rounds| - 1], rounds[|rounds| - 1];
      enrolled, acknowledged := RoundsTrack(options, thread, end, before);
      enrolled, acknowledged := RoundTracks(FlatRounds(before), options, thread, Known(before), last, enrolled, acknowledged);
    }
  }

  /** Unless it was stuck, a round's status is answered: it is acceptable, or the thread is
      not enrolled yet. */
  lemma RoundStatus(r: Round, options: Options, thread: Json, p: Progress)
    requires r.Lawful(options, thread, p) && (r.again || r.Done())
    ensures r.status != [] && r.status[0].reply.Ok?
    ensures var status := r.status[0].reply.value;
      && r.status[0] == Did(ReadStatus(thread), Ok(status))
      && if Awaiting(status, p) then Learned(p, r.status) == p
         else Acceptable(status, options, p) && Learned(p, r.status) == Learn(p, status)
  {
    if r.goal.Some? {
      EnrollsIfAcceptable(r.status[0].reply.value, options, p);
    }
  }

  lemma RoundTracks(events: seq<Event>, options: Options, thread: Json, p: Progress, r: Round, enrolled: nat, acknowledged: nat)
    returns (enrolled': nat, acknowledged': nat)
    requires Tracks(events, thread, options, p, enrolled, acknowledged)
    requires r.Lawful(options, thread, p) && (r.again || r.Done())
    ensures Tracks(events + r.Trace(), thread, options, Learned(p, r.status), enrolled', acknowledged')
  {
    var rest := RoundSplits(r, options, thread, p);
    RoundStatus(r, options, thread, p);
    var status := r.status[0].reply.value;
    enrolled', acknowledged' := PartsTrack(events, Shown(r.time), status, rest, options, thread, p, enrolled, acknowledged);
  }

  lemma PartsTrack(events: seq<Event>, shown: Event, status: Json, rest: seq<Event>, options: Options, thread: Json,
                   p: Progress, enrolled: nat, acknowledged: nat) returns (enrolled': nat, acknowledged': nat)
    requires Tracks(events, thread, options, p, enrolled, acknowledged)
    requires !shown.call.ReadStatus? && NoStatus(rest)
    requires Awaiting(status, p) || Acceptable(status, options, p)
    ensures Tracks(events + ([shown] + [Did(ReadStatus(thread), Ok(status))] + rest), thread, options,
                   if Awaiting(status, p) then p else Learn(p, status), enrolled', acknowledged')
  {
    var read := Did(ReadStatus(thread), Ok(status));
    enrolled', acknowledged' := enrolled, acknowledged;
    TracksOn(events, [shown], thread, options, p, enrolled, acknowledged);
    if Awaiting(status, p) {
      TracksPending(events + [shown], read, thread, options, p, enrolled, acknowledged);
      TracksOn(events + [shown] + [read], rest, thread, options, p, enrolled', acknowledged');
    } else {
      enrolled', acknowledged' := TracksStatus(events + [shown], status, thread, options, p, enrolled, acknowledged);
      TracksOn(events + [shown] + [read], rest, thread, options, Learn(p, status), enrolled', acknowledged');
    }
    assert events + ([shown] + [read] + rest) == events + [shown] + [read] + rest;
  }

  lemma TracksPending(events: seq<Event>, read: Event, thread: Json, options: Options, p: Progress, enrolled: nat, acknowledged: nat)
    requires Tracks(events, thread, options, p, enrolled, acknowledged) && p.first.None?
    requires read.reply.Ok? && NotYetEnrolled(read.reply.value)
    ensures Tracks(events + [read], thread, options, p, enrolled, acknowledged)
  {
  }

  lemma EnrollsIfAcceptable(status: Json, options: Options, p: Progress)
    requires Acceptable(status, options, p)
    ensures !Awaiting(status, p)
  {
    if p.first.None? {
      EnrollsIsNotAwaiting(status, options);
    }
  }

  // ----------------------------------------------------- the pause, and its checkpoint

  /** From `at` on: the goal read paused with no turn running, and the checkpoint on file. */
  ghost predicate PausedFrom(events: seq<Event>, at: nat) {
    && at + 5 <= |events|
    && PausedObservation(events[at..at + 3])
    && PauseTaken(true, events[at + 3..at + 5])
  }

  lemma PausedParts(before: seq<Event>, goal: seq<Event>, file: seq<Event>)
    requires PausedObservation(goal) && PauseTaken(true, file)
    ensures PausedFrom(before + (goal + file) + [], |before|)
  {
    var all, at := before + (goal + file) + [], |before|;
    assert all[at..at + 3] == goal && all[at + 3..at + 5] == file;
  }

  lemma RoundAtPause(r: Round, options: Options, thread: Json, p: Progress)
    requires r.Lawful(options, thread, p) && r.Done()
    ensures !r.again && PausedObservation(r.goal.value.goal) && PauseTaken(true, r.goal.value.file.value)
    ensures Learned(p, r.status).checkpoint
  {
  }

  lemma PausedRound(r: Round)
    requires r.Done() && !r.again && PausedObservation(r.goal.value.goal) && PauseTaken(true, r.goal.value.file.value)
    ensures PausedFrom(r.Trace(), 1 + |r.status|)
  {
    var shown := [Shown(r.time)];
    PausedParts(shown + r.status, r.goal.value.goal, r.goal.value.file.value);
    Regroup(shown, r.status, r.goal.value.Trace());
  }

  lemma PausedWithin(a: seq<Event>, b: seq<Event>, c: seq<Event>, at: nat)
    requires PausedFrom(b, at)
    ensures PausedFrom(a + b + c, |a| + at)
  {
    var all := a + b + c;
    assert all[|a| + at..|a| + at + 3] == b[at..at + 3];
    assert all[|a| + at + 3..|a| + at + 5] == b[at + 3..at + 5];
  }

  /** A status that is read in `before`, or in a round after it, is read before the round's goal. */
  lemma StatusIndex(before: seq<Event>, shown: Event, status: Event, rest: seq<Event>, at: nat)
    requires NoStatus(rest) && at < |before + ([shown] + [status] + rest)|
    ensures (before + ([shown] + [status] + rest))[at].call.ReadStatus? ==> at < |before| + 2
  {
    if at >= |before| + 2 {
      assert (before + ([shown] + [status] + rest))[at] == rest[at - |before| - 2];
    }
  }

  lemma StatusBeforePause(before: seq<Event>, r: Round, options: Options, thread: Json, p: Progress, at: nat)
    requires r.Lawful(options, thread, p) && at < |before + r.Trace()| && (before + r.Trace())[at].call.ReadStatus?
    ensures at < |before| + 1 + |r.status|
  {
    var rest := RoundSplits(r, options, thread, p);
    StatusIndex(before, Shown(r.time), r.status[0], rest, at);
  }

  lemma LastRound(rounds: seq<Round>)
    requires rounds != []
    ensures FlatRounds(rounds) == FlatRounds(rounds[..|rounds| - 1]) + rounds[|rounds| - 1].Trace()
    ensures Polls(rounds, None).Trace() == FlatRounds(rounds)
  {
  }

  lemma PauseAtEnd(before: seq<Event>, last: Round) returns (paused: nat)
    requires last.Done() && !last.again
    requires PausedObservation(last.goal.value.goal) && PauseTaken(true, last.goal.value.file.value)
    ensures paused == |before| + 1 + |last.status| && PausedFrom(before + last.Trace(), paused)
  {
    PausedRound(last);
    PausedWithin(before, last.Trace(), [], 1 + |last.status|);
    assert before + last.Trace() + [] == before + last.Trace();
    paused := |before| + 1 + |last.status|;
  }

  /** Enrollment, acknowledgement and pause, in that order. */
  ghost predicate PollStory(events: seq<Event>, thread: Json, options: Options, first: Json,
                            enrolled: nat, acknowledged: nat, paused: nat) {
    && enrolled <= acknowledged < paused
    && EnrolledAt(events, 0, thread, options, first, enrolled)
    && AcknowledgedAt(events, acknowledged)
    && PausedFrom(events, paused)
  }

  /** The outer loop was left at the pause: enrollment, acknowledgement and pause are in its
      history, in that order. */
  lemma PollsSeePause(h: Polls, options: Options, thread: Json, end: real) returns (enrolled: nat, acknowledged: nat, paused: nat)
    requires h.Lawful(options, thread, end) && h.Done()
    ensures PollStory(h.Trace(), thread, options, h.First(), enrolled, acknowledged, paused)
    ensures UsageGrows(h.Trace(), enrolled, Known(h.rounds).lastUsed)
  {
    var rounds := h.rounds;
    var before, last := rounds[..|rounds| - 1], rounds[|rounds| - 1];
    RoundAtPause(last, options, thread, Known(before));
    enrolled, acknowledged := RoundsTrack(options, thread, end, rounds);
    LastRound(rounds);
    paused := PauseAtEnd(FlatRounds(before), last);
    StatusBeforePause(FlatRounds(before), last, options, thread, Known(before), acknowledged);
  }

  // ------------------------------------------------------------------ the whole run

  /** Everything before the outer loop. */
  ghost function Prelude(h: RunHistory): seq<Event> {
    [Shown(h.begun)] + h.work.setup.Trace()
  }

  ghost predicate AtPause(h: RunHistory) {
    h.work.watch.Some? && h.work.watch.value.polls.Done()
  }

  lemma Parts(shown: seq<Event>, setup: seq<Event>, polls: seq<Event>, turn: seq<Event>, cleanup: seq<Event>)
    ensures shown + (setup + (polls + turn)) + cleanup == shown + setup + polls + (turn + cleanup)
  {
  }

  lemma RunSplits(h: RunHistory)
    requires AtPause(h) && h.work.watch.value.operator.Some?
    ensures h.Trace() == Prelude(h) + h.work.watch.value.polls.Trace() + (h.work.watch.value.operator.value.Trace() + h.cleanup)
  {
    var watch := h.work.watch.value;
    Parts([Shown(h.begun)], h.work.setup.Trace(), watch.polls.Trace(), watch.operator.value.Trace(), h.cleanup);
  }

  /** The setup ends with the activation of the goal. */
  lemma SetupEnds(h: SetupHistory, options: Options)
    requires h.Lawful(options) && h.Ready()
    ensures var setup := h.Trace();
      setup != [] && setup[|setup| - 1].call == GoalActivate(h.Owned())
  {
    var prepared := h.rest.value;
    var controller := prepared.rest.value;
    var dispatch := controller.dispatch.value;
    LastOf(dispatch.goal, [dispatch.activation.value]);
    LastOf(controller.controller, dispatch.Trace());
    LastOf(prepared.mcp, controller.Trace());
    LastOf(h.start, prepared.Trace());
  }

  lemma LastOf(a: seq<Event>, b: seq<Event>)
    requires b != []
    ensures a + b != [] && (a + b)[|a + b| - 1] == b[|b| - 1]
  {
  }

  lemma PreludeEnds(h: RunHistory, options: Options)
    requires h.Lawful(options) && h.work.watch.Some?
    ensures |Prelude(h)| > 0 && Prelude(h)[|Prelude(h)| - 1].call == GoalActivate(h.work.setup.Owned())
  {
    SetupEnds(h.work.setup, options);
    LastOf([Shown(h.begun)], h.work.setup.Trace());
  }

  /** The places of the outer loop, in the whole history. */
  lemma Shifted(a: seq<Event>, b: seq<Event>, c: seq<Event>, acknowledged: nat, paused: nat)
    requires AcknowledgedAt(b, acknowledged) && PausedFrom(b, paused)
    ensures AcknowledgedAt(a + b + c, |a| + acknowledged) && PausedFrom(a + b + c, |a| + paused)
    ensures |b| >= paused + 5
  {
    PausedWithin(a, b, c, paused);
    assert (a + b + c)[|a| + acknowledged] == b[acknowledged];
  }

  lemma TurnFirst(h: OperatorHistory) returns (rest: seq<Event>)
    ensures h.Trace() == [h.start] + rest
  {
    rest := if h.rest.Some? then h.rest.value.Trace() else [];
  }

  /** The goal was activated, the thread was enrolled by the first status after it that did not
      say otherwise, a checkpoint was acknowledged after that, the goal was then read paused
      with no turn running and the checkpoint was on file, and only then the turn was started.
      Up to there every status was qualified under the enrollment, and the usage never fell. */
  ghost predicate TurnStory(events: seq<Event>, thread: Json, options: Options, first: Json, activated: nat,
                            enrolled: nat, acknowledged: nat, paused: nat, started: nat, most: int) {
    && activated < enrolled <= acknowledged < paused && paused + 5 <= started < |events|
    && events[activated].call == GoalActivate(thread)
    && EnrolledAt(events[..started], activated, thread, options, first, enrolled)
    && UsageGrows(events[..started], enrolled, most)
    && AcknowledgedAt(events, acknowledged)
    && PausedFrom(events, paused)
    && events[started].call == TurnStart(thread)
  }

  lemma StoryInParts(a: seq<Event>, polls: seq<Event>, start: Event, rest: seq<Event>, thread: Json, options: Options, first: Json,
                     e: nat, k: nat, p: nat, most: int)
    returns (activated: nat, enrolled: nat, acknowledged: nat, paused: nat, started: nat)
    requires PollStory(polls, thread, options, first, e, k, p) && UsageGrows(polls, e, most) && start.call == TurnStart(thread)
    requires |a| > 0 && a[|a| - 1].call == GoalActivate(thread)
    ensures TurnStory(a + polls + ([start] + rest), thread, options, first, activated, enrolled, acknowledged, paused, started, most)
  {
    Shifted(a, polls, [start] + rest, k, p);
    EnrolledWithin(a, polls, [], thread, options, first, e);
    GrowsWithin(a, polls, e, most);
    CutAt(a + polls, start, rest);
    assert a + polls + [] == a + polls && (a + polls + ([start] + rest))[|a| - 1] == a[|a| - 1];
    activated, enrolled, acknowledged, paused, started := |a| - 1, |a| + e, |a| + k, |a| + p, |a| + |polls|;
  }

  lemma CutAt(before: seq<Event>, start: Event, rest: seq<Event>)
    ensures (before + ([start] + rest))[|before|] == start && (before + ([start] + rest))[..|before|] == before
  {
  }

  /** In every run, also one that fails later, the operator's turn is started only after
      all that. */
  lemma TurnStartedOnlyWhenPaused(h: RunHistory, options: Options)
    returns (first: Json, activated: nat, enrolled: nat, acknowledged: nat, paused: nat, started: nat, most: int)
    requires h.Lawful(options) && Started(h.Trace(), 3)
    ensures h.work.watch.Some? && first == h.work.watch.value.polls.First()
    ensures TurnStory(h.Trace(), h.work.setup.Owned(), options, first, activated, enrolled, acknowledged, paused, started, most)
  {
    TurnNeedsPause(h, options);
    PreludeEnds(h, options);
    var watch := h.work.watch.value;
    var turn := watch.operator.value;
    var rest := TurnFirst(turn);
    first, most := watch.polls.First(), Known(watch.polls.rounds).lastUsed;
    var e, k, p := PollsSeePause(watch.polls, options, h.work.setup.Owned(), EndOf(h.begun, options));
    activated, enrolled, acknowledged, paused, started :=
      StoryInParts(Prelude(h), watch.polls.Trace(), turn.start, rest + h.cleanup, h.work.setup.Owned(), options, first, e, k, p, most);
    RunSplits(h);
    Regroup([turn.start], rest, h.cleanup);
  }

  lemma TurnNeedsPause(h: RunHistory, options: Options)
    requires h.Lawful(options) && Started(h.Trace(), 3)
    ensures AtPause(h) && h.work.watch.value.operator.Some?
    ensures h.work.watch.value.polls.Lawful(options, h.work.setup.Owned(), EndOf(h.begun, options))
    ensures h.work.watch.value.operator.value.start.call == TurnStart(h.work.setup.Owned())
  {
    var thread, end := h.work.setup.Owned(), EndOf(h.begun, options);
    RunStarts(h, options, 3);
    SetupOrdered(h.work.setup, options);
    OrderedStartsNothingElse(h.work.setup.Trace(), thread, 1, 2, 3);
    var watch := h.work.watch.value;
    if !watch.polls.Done() {
      PollsQuiet(watch.polls, options, thread, end);
      QuietStartsNothing(watch.polls.Trace(), thread, 3);
    }
  }

  // ------------------------------------------------------------- what a pass has seen

  lemma QualifiedOn(a: seq<Event>, b: seq<Event>, options: Options, first: Json)
    requires QualifiedFrom(a, 0, options, first) && QualifiedFrom(b, 0, options, first)
    ensures QualifiedFrom(a + b, 0, options, first)
  {
  }

  lemma NoStatusOn(a: seq<Event>, b: seq<Event>)
    requires NoStatus(a) && NoStatus(b)
    ensures NoStatus(a + b)
  {
  }

  lemma WaitReadsNoStatus(r: Wait, thread: Json, operator: Json)
    requires r.Lawful(thread, operator)
    ensures NoStatus(r.Trace())
  {
    assert NoStatus(r.Work()) by {
      if r.check.Some? {
        assert NoStatus(r.check.value);
      }
    }
    RoundedNoStatus(r.time, r.Work(), r.again);
  }

  lemma RoundedNoStatus(time: real, work: seq<Event>, again: bool)
    requires NoStatus(work)
    ensures NoStatus([Shown(time)] + work + if again then [Slept] else [])
  {
  }

  lemma {:induction false} WaitingReadsNoStatus(thread: Json, operator: Json, end: real, rounds: seq<Wait>)
    requires Waiting(thread, operator, end, rounds)
    ensures NoStatus(FlatWaits(rounds))
  {
    if rounds != [] {
      var before, last := rounds[..|rounds| - 1], rounds[|rounds| - 1];
      WaitingReadsNoStatus(thread, operator, end, before);
      WaitReadsNoStatus(last, thread, operator);
      NoStatusOn(FlatWaits(before), last.Trace());
    }
  }

  lemma RoundedQualified(time: real, work: seq<Event>, again: bool, options: Options, first: Json)
    requires QualifiedFrom(work, 0, options, first)
    ensures QualifiedFrom([Shown(time)] + work + if again then [Slept] else [], 0, options, first)
  {
    QualifiedOn([Shown(time)], work, options, first);
    QualifiedOn([Shown(time)] + work, if again then [Slept] else [], options, first);
  }

  lemma AuditQualified(r: Audit, options: Options, thread: Json, first: Json, created: Result<Json>)
    requires r.Lawful(options, thread, first, created) && (r.again || r.Done())
    ensures QualifiedFrom(r.Trace(), 0, options, first)
  {
    assert BothRead(options, first, r.events);
    assert QualifiedFrom(r.events, 0, options, first);
    if r.saved.Some? {
      QualifiedOn(r.events, [r.saved.value], options, first);
    }
    RoundedQualified(r.time, r.Work(), r.again, options, first);
  }

  lemma {:induction false} AuditingQualified(options: Options, thread: Json, first: Json, created: Result<Json>, end: real, rounds: seq<Audit>)
    requires Auditing(options, thread, first, created, end, rounds)
    requires rounds != [] ==> rounds[|rounds| - 1].again || rounds[|rounds| - 1].Done()
    ensures QualifiedFrom(FlatAudits(rounds), 0, options, first)
  {
    if rounds != [] {
      var before, last := rounds[..|rounds| - 1], rounds[|rounds| - 1];
      AuditingQualified(options, thread, first, created, end, before);
      AuditQualified(last, options, thread, first, created);
      QualifiedOn(FlatAudits(before), last.Trace(), options, first);
    }
  }

  lemma AuditsQualified(h: AuditHistory, options: Options, thread: Json, first: Json, created: Result<Json>, end: real)
    requires h.Lawful(options, thread, first, created, end) && h.audits.Done()
    ensures QualifiedFrom(h.Trace(), 0, options, first)
  {
    AuditingQualified(options, thread, first, created, Earlier(end, h.begun + 5.0), h.audits.rounds);
    QualifiedOn(FlatAudits(h.audits.rounds), [], options, first);
    QualifiedOn([Shown(h.begun)], h.audits.Trace(), options, first);
  }

  lemma FinalQualified(h: FinalRead, options: Options, thread: Json, first: Json, created: Result<Json>, end: real)
    requires h.Lawful(options, thread, first, created, end) && h.Done(options, first)
    ensures QualifiedFrom(h.Trace(), 0, options, first)
  {
    assert QualifiedFrom([h.status], 0, options, first);
    if h.audit.Some? {
      AuditsQualified(h.audit.value, options, thread, first, created, end);
      QualifiedOn([h.status], h.audit.value.Trace(), options, first);
    }
  }

  lemma ReplyQualified(h: ReplyHistory, options: Options, thread: Json, operator: Json, first: Json, created: Result<Json>, end: real)
    requires h.Lawful(options, thread, operator, first, created, end) && h.Done()
    ensures QualifiedFrom(h.Trace(), 0, options, first)
  {
    var account := h.account.value;
    WaitingReadsNoStatus(thread, operator, end, h.waits.rounds);
    assert NoStatus(h.waits.Trace());
    FinalQualified(account.read, options, thread, first, created, end);
    QualifiedOn(account.read.Trace(), [account.saved.value], options, first);
    QualifiedOn(h.waits.Trace(), account.Trace(), options, first);
  }

  lemma StartQualified(start: Event, reply: seq<Event>, options: Options, first: Json)
    requires !start.call.ReadStatus? && QualifiedFrom(reply, 0, options, first)
    ensures QualifiedFrom([start] + reply, 0, options, first)
  {
  }

  lemma TurnQualified(h: OperatorHistory, options: Options, thread: Json, first: Json, created: Result<Json>, end: real)
    requires h.Lawful(options, thread, first, created, end) && h.Done()
    ensures QualifiedFrom(h.Trace(), 0, options, first)
  {
    ReplyQualified(h.rest.value, options, thread, h.Operator(), first, created, end);
    StartQualified(h.start, h.rest.value.Trace(), options, first);
  }

  lemma PendingWithin(a: seq<Event>, b: seq<Event>, c: seq<Event>, to: nat)
    requires PendingFrom(b, 0, to) && to <= |b|
    requires |a| > 0 && !a[|a| - 1].call.ReadStatus?
    ensures PendingFrom(a + b + c, |a| - 1, |a| + to)
  {
    var all := a + b + c;
    assert all[|a| - 1] == a[|a| - 1];
    assert forall i | |a| <= i < |a| + |b| :: all[i] == b[i - |a|];
  }

  lemma EnrolledWithin(a: seq<Event>, b: seq<Event>, c: seq<Event>, thread: Json, options: Options, first: Json, enrolled: nat)
    requires EnrolledAt(b, 0, thread, options, first, enrolled) && QualifiedFrom(c, 0, options, first)
    requires |a| > 0 && !a[|a| - 1].call.ReadStatus?
    ensures EnrolledAt(a + b + c, |a| - 1, thread, options, first, |a| + enrolled)
  {
    var all := a + b + c;
    PendingWithin(a, b, c, enrolled);
    assert all[|a| + enrolled] == b[enrolled];
    forall i | |a| + enrolled <= i < |all| && all[i].call.ReadStatus? ensures QualifiedReply(all[i].reply, options, first) {
      if i < |a| + |b| {
        assert all[i] == b[i - |a|];
      } else {
        assert all[i] == c[i - |a| - |b|];
      }
    }
  }

  lemma GrowsWithin(a: seq<Event>, b: seq<Event>, enrolled: nat, most: int)
    requires UsageGrows(b, enrolled, most)
    ensures UsageGrows(a + b, |a| + enrolled, most)
  {
    var all := a + b;
    assert forall i | |a| <= i < |all| :: all[i] == b[i - |a|];
  }

  /** The phases of a run that was worked through. */
  lemma DoneInParts(h: RunHistory, options: Options)
    requires h.Lawful(options) && h.work.Done()
    ensures AtPause(h) && h.work.watch.value.operator.Some?
    ensures h.work.watch.value.polls.Lawful(options, h.work.setup.Owned(), EndOf(h.begun, options))
    ensures var operator := h.work.watch.value.operator.value;
      && operator.Done()
      && operator.Lawful(options, h.work.setup.Owned(), h.work.watch.value.polls.First(), Index(h.work.setup.Goal(), Word.CreatedAt),
                         EndOf(h.begun, options))
  {
  }

  lemma CleanupReadsNoStatus(events: seq<Event>, thread: Json)
    requires CleansUp(events, thread)
    ensures NoStatus(events)
  {
  }

  /** The enrollment is by the first status after the activation that did not say the thread is
      not enrolled yet. From there on every status is qualified under it, and up to `polled`,
      where the operator's turn starts, the usage never falls. */
  ghost predicate KeptAllowance(events: seq<Event>, thread: Json, options: Options, first: Json, activated: nat, enrolled: nat,
                                polled: nat, most: int) {
    && activated < enrolled < polled < |events|
    && events[activated].call == GoalActivate(thread) && events[polled].call == TurnStart(thread)
    && EnrolledAt(events, activated, thread, options, first, enrolled)
    && AllowanceKept(events, enrolled, options, first)
    && UsageGrows(events[..polled], enrolled, most)
  }

  lemma KeptInParts(a: seq<Event>, polls: seq<Event>, start: Event, rest: seq<Event>, thread: Json, options: Options, first: Json,
                    e: nat, most: int) returns (activated: nat, enrolled: nat, polled: nat)
    requires EnrolledAt(polls, 0, thread, options, first, e) && UsageGrows(polls, e, most)
    requires |a| > 0 && a[|a| - 1].call == GoalActivate(thread)
    requires start.call == TurnStart(thread) && QualifiedFrom([start] + rest, 0, options, first)
    ensures KeptAllowance(a + polls + ([start] + rest), thread, options, first, activated, enrolled, polled, most)
  {
    activated, enrolled, polled := |a| - 1, |a| + e, |a| + |polls|;
    EnrolledWithin(a, polls, [start] + rest, thread, options, first, e);
    GrowsWithin(a, polls, e, most);
    CutAt(a + polls, start, rest);
    QualifiedIsKept(a + polls + ([start] + rest), enrolled, options, first);
    assert (a + polls + ([start] + rest))[|a| - 1] == a[|a| - 1];
  }

  /** The turn and the cleanup, in the shape in which they follow the outer loop. */
  lemma TurnThenCleanup(turn: OperatorHistory, cleanup: seq<Event>, options: Options, thread: Json, first: Json, created: Result<Json>,
                        end: real) returns (rest: seq<Event>)
    requires turn.Lawful(options, thread, first, created, end) && turn.Done() && NoStatus(cleanup)
    ensures turn.Trace() + cleanup == [turn.start] + rest && turn.start.call == TurnStart(thread)
    ensures QualifiedFrom([turn.start] + rest, 0, options, first)
  {
    TurnQualified(turn, options, thread, first, created, end);
    QualifiedOn(turn.Trace(), cleanup, options, first);
    var first' := TurnFirst(turn);
    rest := first' + cleanup;
    Regroup([turn.start], first', cleanup);
  }

  /** The places are determined: a history has no two enrollments after its activation. */
  lemma OneEnrollment(events: seq<Event>, from: nat, thread: Json, options: Options, first: Json, enrolled: nat, first': Json,
                      enrolled': nat)
    requires EnrolledAt(events, from, thread, options, first, enrolled)
    requires EnrolledAt(events, from, thread, options, first', enrolled')
    ensures enrolled == enrolled' && first == first'
  {
    EnrollsIsNotAwaiting(first, options);
    EnrollsIsNotAwaiting(first', options);
    assert events[enrolled].reply == Ok(first) && events[enrolled'].reply == Ok(first');
  }

  /** In a run that is worked through, every status read from the enrollment on, in the whole
      history, is qualified and has the allocation, generation, deadline and caps of the
      first; and in the outer loop the usage never falls. */
  lemma PassedKeepsAllowance(h: RunHistory, options: Options)
    returns (first: Json, activated: nat, enrolled: nat, polled: nat, most: int)
    requires h.Lawful(options) && h.work.Done()
    ensures h.work.watch.Some? && first == h.work.watch.value.polls.First()
    ensures KeptAllowance(h.Trace(), h.work.setup.Owned(), options, first, activated, enrolled, polled, most)
  {
    DoneInParts(h, options);
    PreludeEnds(h, options);
    var thread, watch := h.work.setup.Owned(), h.work.watch.value;
    CleanupReadsNoStatus(h.cleanup, thread);
    first := watch.polls.First();
    var turn, end := watch.operator.value, EndOf(h.begun, options);
    var rest := TurnThenCleanup(turn, h.cleanup, options, thread, first, Index(h.work.setup.Goal(), Word.CreatedAt), end);
    var e, k, p := PollsSeePause(watch.polls, options, thread, end);
    most := Known(watch.polls.rounds).lastUsed;
    activated, enrolled, polled := KeptInParts(Prelude(h), watch.polls.Trace(), turn.start, rest, thread, options, first, e, most);
    RunSplits(h);
  }

  // -------------------------------------------------------------------- the answer

  /** At `replied` the operator's turn was read completed with the answer asked for, the next
      call read the goal, which was still paused, and then the reply was recorded. */
  ghost predicate AnsweredAt(events: seq<Event>, replied: nat, thread: Json, operator: Json) {
    && replied + 2 < |events|
    && events[replied].call == ThreadRead(thread) && TurnCompleted(events[replied].reply, operator)
    && events[replied + 1].call == GoalGet(thread) && !Resumed(events[replied + 1].reply)
    && events[replied + 2].call == Save(OperatorReplied) && events[replied + 2].reply.Ok?
  }

  /** The turn was started, which gave its identity, and later answered. */
  ghost predicate AnswerStory(events: seq<Event>, thread: Json, started: nat, replied: nat) {
    && started < replied && started < |events|
    && events[started].call == TurnStart(thread) && OperatorTurn(events[started].reply).Ok?
    && AnsweredAt(events, replied, thread, OperatorTurn(events[started].reply).value)
  }

  lemma AnsweredWithin(a: seq<Event>, b: seq<Event>, c: seq<Event>, at: nat, thread: Json, operator: Json)
    requires AnsweredAt(b, at, thread, operator)
    ensures AnsweredAt(a + b + c, |a| + at, thread, operator)
  {
    var all := a + b + c;
    assert all[|a| + at] == b[at] && all[|a| + at + 1] == b[at + 1] && all[|a| + at + 2] == b[at + 2];
  }

  lemma WaitAnswers(r: Wait, thread: Json, operator: Json)
    requires r.Lawful(thread, operator) && r.Done()
    ensures AnsweredAt(r.Trace(), 1, thread, operator)
  {
    var check := r.check.value;
    assert CheckPassed(check);
    assert AnsweredAt([r.read] + check, 0, thread, operator);
    AnsweredWithin([Shown(r.time)], [r.read] + check, r.Pause(), 0, thread, operator);
  }

  lemma WaitsAnswer(h: Waits, thread: Json, operator: Json, end: real) returns (at: nat)
    requires h.Lawful(thread, operator, end) && h.Done()
    ensures AnsweredAt(h.Trace(), at, thread, operator)
  {
    var before, last := h.rounds[..|h.rounds| - 1], h.rounds[|h.rounds| - 1];
    LastWait(h, thread, operator, end);
    WaitAnswers(last, thread, operator);
    AnsweredWithin(FlatWaits(before), last.Trace(), [], 1, thread, operator);
    at := |FlatWaits(before)| + 1;
  }

  lemma LastWait(h: Waits, thread: Json, operator: Json, end: real)
    requires h.Lawful(thread, operator, end) && h.Done()
    ensures var last := h.rounds[|h.rounds| - 1];
      && last.Lawful(thread, operator) && last.Done()
      && h.Trace() == FlatWaits(h.rounds[..|h.rounds| - 1]) + last.Trace() + []
  {
  }

  lemma AnswerInParts(a: seq<Event>, start: Event, waits: seq<Event>, rest: seq<Event>, at: nat, thread: Json)
    returns (started: nat, replied: nat)
    requires start.call == TurnStart(thread) && OperatorTurn(start.reply).Ok?
    requires AnsweredAt(waits, at, thread, OperatorTurn(start.reply).value)
    ensures AnswerStory(a + [start] + waits + rest, thread, started, replied)
  {
    started, replied := |a|, |a| + 1 + at;
    AnsweredWithin(a + [start], waits, rest, at, thread, OperatorTurn(start.reply).value);
    assert (a + [start] + waits + rest)[|a|] == start;
  }

  lemma AnswerParts(a: seq<Event>, start: Event, waits: seq<Event>, account: seq<Event>, cleanup: seq<Event>)
    ensures a + (([start] + (waits + account)) + cleanup) == a + [start] + waits + (account + cleanup)
  {
  }

  lemma ReplyInParts(h: ReplyHistory, options: Options, thread: Json, operator: Json, first: Json, created: Result<Json>, end: real)
    requires h.Lawful(options, thread, operator, first, created, end) && h.Done()
    ensures h.waits.Lawful(thread, operator, end) && h.waits.Done()
    ensures h.account.Some? && h.Trace() == h.waits.Trace() + h.account.value.Trace()
  {
  }

  /** In a run that is worked through the operator was answered by the very turn that was
      started, and the goal was still paused right after. */
  lemma PassedWasAnswered(h: RunHistory, options: Options) returns (started: nat, replied: nat)
    requires h.Lawful(options) && h.work.Done()
    ensures AnswerStory(h.Trace(), h.work.setup.Owned(), started, replied)
  {
    DoneInParts(h, options);
    var thread, watch, end := h.work.setup.Owned(), h.work.watch.value, EndOf(h.begun, options);
    var turn := watch.operator.value;
    var reply := turn.rest.value;
    ReplyInParts(reply, options, thread, turn.Operator(), watch.polls.First(), Index(h.work.setup.Goal(), Word.CreatedAt), end);
    var at := WaitsAnswer(reply.waits, thread, turn.Operator(), end);
    var before := Prelude(h) + watch.polls.Trace();
    started, replied := AnswerInParts(before, turn.start, reply.waits.Trace(), reply.account.value.Trace() + h.cleanup, at, thread);
    RunSplits(h);
    AnswerParts(before, turn.start, reply.waits.Trace(), reply.account.value.Trace(), h.cleanup);
  }

  // ------------------------------------------------------------------ the last usage

  /** `final` is the last status read, at `k`. */
  ghost predicate LastStatusAt(events: seq<Event>, k: nat, thread: Json, final: Json) {
    && k < |events| && events[k] == Did(ReadStatus(thread), Ok(final))
    && forall i | k < i < |events| :: !events[i].call.ReadStatus?
  }

  /** A raw replay that is qualified and agrees comes right before it. */
  ghost predicate ReplayedBefore(events: seq<Event>, k: nat, final: Json) {
    && 0 < k < |events| && events[k - 1].call.ObserveRaw?
    && events[k - 1].reply.Ok? && Replays(events[k - 1].reply.value, final)
  }

  ghost predicate ReportedAt(events: seq<Event>, k: nat, thread: Json, final: Json, observer: bool) {
    LastStatusAt(events, k, thread, final) && (observer ==> ReplayedBefore(events, k, final))
  }

  lemma ReportedWithin(a: seq<Event>, b: seq<Event>, c: seq<Event>, at: nat, thread: Json, final: Json, observer: bool)
    returns (k: nat)
    requires ReportedAt(b, at, thread, final, observer) && NoStatus(c)
    ensures ReportedAt(a + b + c, k, thread, final, observer)
  {
    var all := a + b + c;
    k := |a| + at;
    assert all[k] == b[at] && (at > 0 ==> all[k - 1] == b[at - 1]);
    forall i | k < i < |all| ensures !all[i].call.ReadStatus? {
      if i < |a| + |b| {
        assert all[i] == b[i - |a|];
      } else {
        assert all[i] == c[i - |a| - |b|];
      }
    }
  }

  /** A round of the audit that reconciled. */
  lemma AuditReports(r: Audit, options: Options, thread: Json, first: Json, created: Result<Json>)
    requires r.Lawful(options, thread, first, created) && r.Done()
    ensures ReportedAt(r.Trace(), 2, thread, r.Status(), true)
  {
    var replay, status := r.events[0], r.events[1];
    assert Reconciled(options, first, r.events);
    assert r.events == [replay, status];
    assert status == Did(ReadStatus(thread), Ok(r.Status()));
    ThreeReport(Shown(r.time), replay, status, r.saved.value, thread, r.Status());
    assert r.Trace() == [Shown(r.time)] + (r.events + [r.saved.value]) + [];
  }

  lemma ThreeReport(shown: Event, replay: Event, status: Event, saved: Event, thread: Json, final: Json)
    requires replay.call.ObserveRaw? && replay.reply.Ok? && Replays(replay.reply.value, final)
    requires status == Did(ReadStatus(thread), Ok(final)) && !saved.call.ReadStatus?
    ensures ReportedAt([shown] + ([replay, status] + [saved]) + [], 2, thread, final, true)
  {
    var all := [shown] + ([replay, status] + [saved]) + [];
    assert |all| == 4 && all[1] == replay && all[2] == status && all[3] == saved;
  }

  lemma AuditsReport(h: AuditHistory, options: Options, thread: Json, first: Json, created: Result<Json>, end: real) returns (k: nat)
    requires h.Lawful(options, thread, first, created, end) && h.audits.Done()
    ensures ReportedAt(h.Trace(), k, thread, h.audits.Final(), true)
  {
    var rounds := h.audits.rounds;
    var last := rounds[|rounds| - 1];
    AuditReports(last, options, thread, first, created);
    var before := rounds[..|rounds| - 1];
    assert rounds == before + [last];
    OneMoreAudit(before, last);
    k := LastReports(Shown(h.begun), FlatAudits(before), last.Trace(), 2, thread, last.Status());
  }

  lemma LastReports(shown: Event, before: seq<Event>, last: seq<Event>, at: nat, thread: Json, final: Json) returns (k: nat)
    requires ReportedAt(last, at, thread, final, true)
    ensures ReportedAt([shown] + ((before + last) + []), k, thread, final, true)
  {
    k := ReportedWithin([shown] + before, last, [], at, thread, final, true);
    assert [shown] + ((before + last) + []) == [shown] + before + last + [];
  }

  lemma OneReport(status: Event, thread: Json, final: Json) returns (k: nat)
    requires status == Did(ReadStatus(thread), Ok(final))
    ensures ReportedAt([status], k, thread, final, false)
  {
    k := 0;
  }

  lemma FinalReports(h: FinalRead, options: Options, thread: Json, first: Json, created: Result<Json>, end: real) returns (k: nat)
    requires h.Lawful(options, thread, first, created, end) && h.Done(options, first)
    ensures ReportedAt(h.Trace(), k, thread, h.Final(), options.observer)
  {
    if h.audit.Some? {
      var at := AuditsReport(h.audit.value, options, thread, first, created, end);
      k := ReportedWithin([h.status], h.audit.value.Trace(), [], at, thread, h.Final(), true);
      assert [h.status] + h.audit.value.Trace() + [] == h.Trace();
    } else {
      k := OneReport(h.status, thread, h.Final());
    }
  }

  lemma SavedReports(waits: seq<Event>, read: seq<Event>, saved: Event, at: nat, thread: Json, final: Json, observer: bool)
    returns (k: nat)
    requires ReportedAt(read, at, thread, final, observer) && !saved.call.ReadStatus?
    ensures ReportedAt(waits + (read + [saved]), k, thread, final, observer)
  {
    k := ReportedWithin(waits, read, [saved], at, thread, final, observer);
    Regroup(waits, read, [saved]);
  }

  lemma AccountDone(h: Account, options: Options, thread: Json, first: Json, created: Result<Json>, end: real)
    requires h.Lawful(options, thread, first, created, end) && h.Done()
    ensures h.read.Lawful(options, thread, first, created, end) && h.read.Done(options, first)
    ensures h.saved.Some? && h.saved.value.call == Save(LastStatus)
  {
  }

  lemma ReplyReports(h: ReplyHistory, options: Options, thread: Json, operator: Json, first: Json, created: Result<Json>, end: real)
    returns (k: nat)
    requires h.Lawful(options, thread, operator, first, created, end) && h.Done()
    ensures ReportedAt(h.Trace(), k, thread, h.Final(), options.observer)
  {
    var account := h.account.value;
    AccountDone(account, options, thread, first, created, end);
    var at := FinalReports(account.read, options, thread, first, created, end);
    k := SavedReports(h.waits.Trace(), account.read.Trace(), account.saved.value, at, thread, h.Final(), options.observer);
  }

  lemma PartsReport(a: seq<Event>, start: Event, reply: seq<Event>, cleanup: seq<Event>, at: nat, thread: Json, final: Json,
                    observer: bool) returns (k: nat)
    requires ReportedAt(reply, at, thread, final, observer) && NoStatus(cleanup)
    ensures ReportedAt(a + (([start] + reply) + cleanup), k, thread, final, observer)
  {
    k := ReportedWithin(a + [start], reply, cleanup, at, thread, final, observer);
    TurnParts(a, start, reply, cleanup);
  }

  lemma TurnParts(a: seq<Event>, start: Event, reply: seq<Event>, cleanup: seq<Event>)
    ensures a + (([start] + reply) + cleanup) == a + [start] + reply + cleanup
  {
  }

  /** In a run that is worked through the usage reported is that of the last status read in
      the whole history; with an observer, the call just before it is a raw replay that is
      qualified and agrees. */
  lemma PassedReportsLastUsage(h: RunHistory, options: Options) returns (k: nat)
    requires h.Lawful(options) && h.work.Done()
    ensures ReportedAt(h.Trace(), k, h.work.setup.Owned(), h.work.Final(), options.observer)
  {
    DoneInParts(h, options);
    var thread, watch := h.work.setup.Owned(), h.work.watch.value;
    CleanupReadsNoStatus(h.cleanup, thread);
    var turn := watch.operator.value;
    var at := ReplyReports(turn.rest.value, options, thread, turn.Operator(), watch.polls.First(),
                           Index(h.work.setup.Goal(), Word.CreatedAt), EndOf(h.begun, options));
    k := PartsReport(Prelude(h) + watch.polls.Trace(), turn.start, turn.rest.value.Trace(), h.cleanup, at, thread,
                     h.work.Final(), options.observer);
    RunSplits(h);
  }
}
