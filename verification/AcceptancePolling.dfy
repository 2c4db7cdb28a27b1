/** The outer loop of `run` in scripts/goal_supervision_real_acceptance.py, for every
    environment: from the enrollment to the pause with its checkpoint. */
module AcceptancePolling {
  import Word
  import opened Values
  import opened Native
  import opened Receipts
  import opened Readings

  // ---------------------------------------------------------------------- progress

  /** What the loop has learned: the enrollment, the usage last reported, and whether a
      checkpoint was acknowledged. */
  datatype Progress = Progress(first: Option<Json>, lastUsed: int, checkpoint: bool)

  const Unenrolled: Progress := Progress(None, 0, false)

  /** A qualified status with a usage that does not fall and a checkpoint that can be read. */
  predicate Acceptable(status: Json, options: Options, p: Progress) {
    && (p.first.None? ==> Enrolls(status, options))
    && Qualified(status, options, p.first.GetOr(status))
    && Used(status).Int? && Used(status).n >= p.lastUsed
    && (p.checkpoint || CheckpointState(status).Ok?)
  }

  /** The thread is not enrolled yet, and nothing else is wrong. */
  predicate Awaiting(status: Json, p: Progress) {
    p.first.None? && NotYetEnrolled(status)
  }

  /** The progress after an acceptable status. */
  function Learn(p: Progress, status: Json): Progress {
    Progress(Some(p.first.GetOr(status)), if Used(status).Int? then Used(status).n else 0,
             p.checkpoint || CheckpointAcknowledged(status))
  }

  lemma EnrollsIsNotAwaiting(status: Json, options: Options)
    requires Enrolls(status, options)
    ensures !NotYetEnrolled(status)
  {
  }

  // --------------------------------------------------------------- a round's status

  /** The calls of the first part of a round; the enrollment is recorded once. */
  ghost predicate StatusCalls(thread: Json, events: seq<Event>) {
    && 1 <= |events| <= 3
    && events[0].call == ReadStatus(thread)
    && (|events| > 1 ==> events[1].call == Save(LatestStatus))
    && (|events| > 2 ==> events[2].call == Save(EnrollmentReceipt))
  }

  ghost predicate StatusPending(p: Progress, events: seq<Event>) {
    |events| == 2 && events[0].reply.Ok? && events[1].reply.Ok? && Awaiting(events[0].reply.value, p)
  }

  ghost predicate StatusAccepted(options: Options, p: Progress, events: seq<Event>) {
    && |events| == (if p.first.None? then 3 else 2)
    && events[0].reply.Ok? && events[1].reply.Ok? && (|events| == 3 ==> events[2].reply.Ok?)
    && Acceptable(events[0].reply.value, options, p)
  }

  ghost predicate StatusStuck(options: Options, p: Progress, events: seq<Event>) {
    if |events| == 1 then events[0].reply.Err?
    else if |events| == 2 then
      && events[0].reply.Ok?
      && (|| events[1].reply.Err?
          || (p.first.None? && !Awaiting(events[0].reply.value, p) && !Enrolls(events[0].reply.value, options))
          || (p.first.Some? && !Acceptable(events[0].reply.value, options, p)))
    else
      && |events| == 3 && p.first.None? && events[0].reply.Ok? && events[1].reply.Ok?
      && Enrolls(events[0].reply.value, options)
      && (events[2].reply.Err? || !Acceptable(events[0].reply.value, options, p))
  }

  /** What is known after the first part of a round. */
  ghost function Learned(p: Progress, events: seq<Event>): Progress {
    if events == [] || events[0].reply.Err? || Awaiting(events[0].reply.value, p) then p
    else Learn(p, events[0].reply.value)
  }

  /** The judgement on a status that has been recorded. */
  function Judge(status: Json, options: Options, p: Progress): (r: Result<Progress>)
    ensures r.Ok? <==> Acceptable(status, options, p)
    ensures r.Ok? ==> r.value == Learn(p, status)
  {
    var first := p.first.GetOr(status);
    var qualified := (p.first.None? ==> Enrolls(status, options)) && Qualified(status, options, first);
    :- Require(qualified);
    :- Require(Used(status).Int? && Used(status).n >= p.lastUsed);
    var checkpoint :- if p.checkpoint then Ok(true) else CheckpointState(status);
    Ok(Progress(Some(first), Used(status).n, checkpoint))
  }

  method RecordStatus(w: World, thread: Json) returns (r: Result<Json>, ghost events: seq<Event>)
    requires w.Valid()
    modifies w
    ensures w.trace == old(w.trace) + events && w.Now() >= old(w.Now()) && w.Valid()
    ensures 1 <= |events| <= 2 && StatusCalls(thread, events)
    ensures r.Ok? ==> |events| == 2 && events[0].reply == r && events[1].reply.Ok?
    ensures r.Err? ==> if |events| == 1 then events[0].reply.Err? else events[0].reply.Ok? && events[1].reply.Err?
  {
    r := w.Ask(ReadStatus(thread));
    events := [Did(ReadStatus(thread), r)];
    var status :- r;
    var saved := w.Ask(Save(LatestStatus));
    events := events + [Did(Save(LatestStatus), saved)];
    if saved.Err? {
      r := Err(saved.error);
    }
  }

  /** The status read of one round: `None` while the thread is not yet enrolled. */
  method PollStatus(w: World, options: Options, thread: Json, p: Progress)
    returns (r: Result<Option<Progress>>, ghost events: seq<Event>)
    requires w.Valid()
    modifies w
    ensures w.trace == old(w.trace) + events && w.Now() >= old(w.Now()) && w.Valid()
    ensures StatusCalls(thread, events)
    ensures r == Ok(None) ==> StatusPending(p, events)
    ensures r.Ok? && r.value.Some? ==> StatusAccepted(options, p, events) && r.value.value == Learned(p, events)
    ensures r.Err? ==> StatusStuck(options, p, events)
  {
    var read;
    read, events := RecordStatus(w, thread);
    var status :- read;
    if Awaiting(status, p) {
      return Ok(None), events;
    }
    if p.first.None? {
      :- Require(Enrolls(status, options));
      var saved := w.Ask(Save(EnrollmentReceipt));
      events := events + [Did(Save(EnrollmentReceipt), saved)];
      var _ :- saved;
    }
    var p' :- Judge(status, options, p);
    r := Ok(Some(p'));
  }

  // ------------------------------------------------------- a round's goal and turns

  ghost predicate GoalReadCalls(thread: Json, events: seq<Event>) {
    && 1 <= |events| <= 3
    && events[0].call == GoalGet(thread)
    && (|events| > 1 ==> events[1].call == ThreadRead(thread))
    && (|events| > 2 ==> events[2].call == Save(NativeFinal))
  }

  /** Goal and thread were read and recorded. */
  ghost predicate GoalRead(events: seq<Event>) {
    |events| == 3 && Shows(events[0].reply, Word.Goal) && Shows(events[1].reply, Word.Thread) && events[2].reply.Ok?
  }

  /** Whether the goal is paused with no turn running; either may be unreadable. */
  function PausedIn(goal: Json, native: Json): Result<bool> {
    var status :- Index(goal, Word.Status);
    if status != Str(Word.Paused) then Ok(false)
    else
      var turns :- IndexList(native, Word.Turns);
      var running :- AnyRunning(turns);
      Ok(!running)
  }

  lemma PausedInIs(goal: Json, native: Json)
    ensures PausedIn(goal, native) == Ok(true) <==> ReadsPaused(goal, native)
    ensures PausedIn(goal, native) == Ok(false) <==> ReadsWorking(goal, native)
  {
    if HasKey(native, Word.Turns) && native.fields[Word.Turns].Arr? {
      AnyRunningIs(native.fields[Word.Turns].items);
      assert Has(native, Word.Turns, Arr(native.fields[Word.Turns].items));
    }
  }

  /** The goal was read paused, and no turn was in progress. */
  ghost predicate PausedObservation(events: seq<Event>) {
    GoalRead(events) && ReadsPaused(events[0].reply.value.fields[Word.Goal], events[1].reply.value.fields[Word.Thread])
  }

  /** The goal was not read paused, or some turn was in progress. */
  ghost predicate StillWorking(events: seq<Event>) {
    GoalRead(events) && ReadsWorking(events[0].reply.value.fields[Word.Goal], events[1].reply.value.fields[Word.Thread])
  }

  ghost predicate GoalReadStuck(events: seq<Event>) {
    if |events| == 1 then !Shows(events[0].reply, Word.Goal)
    else if |events| == 2 then Shows(events[0].reply, Word.Goal) && !Shows(events[1].reply, Word.Thread)
    else
      && |events| == 3 && Shows(events[0].reply, Word.Goal) && Shows(events[1].reply, Word.Thread)
      && (events[2].reply.Err? || (!PausedObservation(events) && !StillWorking(events)))
  }

  method PollGoal(w: World, thread: Json) returns (r: Result<bool>, ghost events: seq<Event>)
    requires w.Valid()
    modifies w
    ensures w.trace == old(w.trace) + events && w.Now() >= old(w.Now()) && w.Valid()
    ensures GoalReadCalls(thread, events)
    ensures r.Ok? ==> if r.value then PausedObservation(events) else StillWorking(events)
    ensures r.Err? ==> GoalReadStuck(events)
  {
    var read := w.Ask(GoalGet(thread));
    events := [Did(GoalGet(thread), read)];
    var goal :- GoalIn(read);
    var turns := w.Ask(ThreadRead(thread));
    events := events + [Did(ThreadRead(thread), turns)];
    var native :- ThreadIn(turns);
    var saved := w.Ask(Save(NativeFinal));
    events := events + [Did(Save(NativeFinal), saved)];
    var _ :- saved;
    PausedInIs(goal, native);
    r := PausedIn(goal, native);
  }

  // ------------------------------------------------------------ a round's checkpoint

  ghost predicate PauseCalls(events: seq<Event>) {
    && |events| <= 2
    && (|events| > 0 ==> events[0].call == CheckpointFile)
    && (|events| > 1 ==> events[1].call == Save(PauseReceipt))
  }

  /** The checkpoint was acknowledged and is on file, and the pause is recorded. */
  ghost predicate PauseTaken(acknowledged: bool, events: seq<Event>) {
    acknowledged && |events| == 2 && events[0].reply == Ok(Bool(true)) && events[1].reply.Ok?
  }

  ghost predicate PauseStuck(acknowledged: bool, events: seq<Event>) {
    if !acknowledged then events == []
    else if |events| == 1 then events[0].reply != Ok(Bool(true))
    else |events| == 2 && events[0].reply == Ok(Bool(true)) && events[1].reply.Err?
  }

  method TakePause(w: World, thread: Json, acknowledged: bool) returns (r: Result<()>, ghost events: seq<Event>)
    requires w.Valid()
    modifies w
    ensures w.trace == old(w.trace) + events && w.Now() >= old(w.Now()) && w.Valid()
    ensures PauseCalls(events)
    ensures r.Ok? ==> PauseTaken(acknowledged, events)
    ensures r.Err? ==> PauseStuck(acknowledged, events)
  {
    events := [];
    :- Require(acknowledged);
    var file := w.Ask(CheckpointFile);
    events := [Did(CheckpointFile, file)];
    :- Require(file == Ok(Bool(true)));
    var saved := w.Ask(Save(PauseReceipt));
    events := events + [Did(Save(PauseReceipt), saved)];
    var _ :- saved;
    r := Ok(());
  }

  // ------------------------------------------------------------------------- a round

  /** The reads of goal and turns; the checkpoint is asked for exactly at the pause. */
  datatype GoalHistory = GoalHistory(goal: seq<Event>, file: Option<seq<Event>>) {
    ghost function Trace(): seq<Event> {
      if file.Some? then goal + file.value else goal
    }

    /** `again`: the loop goes on. */
    ghost predicate Lawful(thread: Json, acknowledged: bool, again: bool) {
      && GoalReadCalls(thread, goal)
      && if file.Some? then
           && !again && PausedObservation(goal) && PauseCalls(file.value)
           && if Done() then PauseTaken(acknowledged, file.value) else PauseStuck(acknowledged, file.value)
         else if again then StillWorking(goal) else GoalReadStuck(goal)
    }

    ghost predicate Done() {
      file.Some? && |file.value| == 2 && file.value[1].reply.Ok?
    }
  }

  method PollPause(w: World, thread: Json, acknowledged: bool) returns (r: Result<bool>, ghost h: GoalHistory)
    requires w.Valid()
    modifies w
    ensures w.trace == old(w.trace) + h.Trace() && w.Now() >= old(w.Now()) && w.Valid()
    ensures h.Lawful(thread, acknowledged, r == Ok(false))
    ensures r == Ok(true) <==> h.Done()
  {
    var paused, goal := PollGoal(w, thread);
    h := GoalHistory(goal, None);
    r := paused;
    if paused == Ok(true) {
      var taken, file := TakePause(w, thread, acknowledged);
      h := GoalHistory(goal, Some(file));
      Regroup(old(w.trace), goal, file);
      if taken.Err? {
        r := Err(taken.error);
      }
    }
  }

  /** One round: a reading of the clock, the status, then goal and turns once the thread is
      enrolled, and a sleep if the loop goes on. */
  datatype Round = Round(time: real, status: seq<Event>, goal: Option<GoalHistory>, again: bool) {
    ghost function Trace(): seq<Event> {
      [Shown(time)] + Work() + Pause()
    }

    ghost function Work(): seq<Event> {
      if goal.Some? then status + goal.value.Trace() else status
    }

    ghost function Pause(): seq<Event> {
      if again then [Slept] else []
    }

    ghost predicate Lawful(options: Options, thread: Json, p: Progress) {
      && StatusCalls(thread, status)
      && if goal.Some? then StatusAccepted(options, p, status) && goal.value.Lawful(thread, Learned(p, status).checkpoint, again)
         else if again then StatusPending(p, status) else StatusStuck(options, p, status)
    }

    ghost predicate Done() {
      goal.Some? && goal.value.Done()
    }
  }

  /** The progress made; `again`: the loop goes on. */
  method PollRound(w: World, options: Options, thread: Json, p: Progress, time: real)
    returns (r: Result<Progress>, again: bool, ghost round: Round)
    requires w.Valid()
    modifies w
    ensures w.trace == old(w.trace) + round.Work() && w.Now() >= old(w.Now()) && w.Valid()
    ensures round.time == time && round.Lawful(options, thread, p)
    ensures again == round.again
    ensures r.Ok? ==> r.value == Learned(p, round.status)
    ensures if r.Ok? && !again then round.Done() else !round.Done()
    ensures again ==> r.Ok?
  {
    again := false;
    var read, status := PollStatus(w, options, thread, p);
    round := Round(time, status, None, read == Ok(None));
    var seen :- read;
    if seen.None? {
      r, again := Ok(p), true;
      return;
    }
    var paused, goal := PollPause(w, thread, seen.value.checkpoint);
    round := Round(time, status, Some(goal), paused == Ok(false));
    Regroup(old(w.trace), status, goal.Trace());
    var stop :- paused;
    r, again := Ok(seen.value), !stop;
  }

  // ------------------------------------------------------------------------ the loop

  ghost function FlatRounds(rounds: seq<Round>): seq<Event> {
    if rounds == [] then [] else FlatRounds(rounds[..|rounds| - 1]) + rounds[|rounds| - 1].Trace()
  }

  /** What is known after some rounds. */
  ghost function Known(rounds: seq<Round>): Progress {
    if rounds == [] then Unenrolled else Learned(Known(rounds[..|rounds| - 1]), rounds[|rounds| - 1].status)
  }

  /** Each round is lawful in view of those before it, and begins in time. */
  ghost predicate Going(options: Options, thread: Json, end: real, rounds: seq<Round>) {
    rounds != [] ==>
      && var before, last := rounds[..|rounds| - 1], rounds[|rounds| - 1];
      && Going(options, thread, end, before)
      && (before != [] ==> before[|before| - 1].again)
      && last.time < end && last.Lawful(options, thread, Known(before))
  }

  /** The rounds, and the reading of the clock that was too late for another. */
  datatype Polls = Polls(rounds: seq<Round>, late: Option<real>) {
    ghost function Trace(): seq<Event> {
      FlatRounds(rounds) + TooLate(late)
    }

    /** The loop is left by a last round that does not go on, or when time is up. */
    ghost predicate Lawful(options: Options, thread: Json, end: real) {
      && Going(options, thread, end, rounds)
      && if late.Some? then late.value >= end && (rounds != [] ==> Last().again) else rounds != [] && !Last().again
    }

    ghost function Last(): Round
      requires rounds != []
    {
      rounds[|rounds| - 1]
    }

    /** It was left at the pause. */
    ghost predicate Done() {
      late.None? && rounds != [] && Last().Done()
    }

    ghost function First(): Json {
      Known(rounds).first.GetOr(Null)
    }
  }

  lemma OneMoreRound(rounds: seq<Round>, round: Round)
    ensures FlatRounds(rounds + [round]) == FlatRounds(rounds) + round.Trace()
    ensures Known(rounds + [round]) == Learned(Known(rounds), round.status)
  {
    var all := rounds + [round];
    assert all[..|all| - 1] == rounds && all[|all| - 1] == round;
  }

  lemma RoundAppended(before: seq<Event>, rounds: seq<Round>, round: Round)
    ensures before + FlatRounds(rounds) + [Shown(round.time)] + round.Work() + round.Pause() == before + FlatRounds(rounds + [round])
  {
    OneMoreRound(rounds, round);
    RoundRegroup(before, FlatRounds(rounds), [Shown(round.time)], round.Work(), round.Pause());
  }

  lemma StillGoing(options: Options, thread: Json, end: real, rounds: seq<Round>, round: Round)
    requires Going(options, thread, end, rounds) && (rounds != [] ==> rounds[|rounds| - 1].again)
    requires round.time < end && round.Lawful(options, thread, Known(rounds))
    ensures Going(options, thread, end, rounds + [round])
  {
    var all := rounds + [round];
    assert all[..|all| - 1] == rounds && all[|all| - 1] == round;
  }

  lemma LeftLate(options: Options, thread: Json, end: real, before: seq<Event>, rounds: seq<Round>, time: real)
    requires Going(options, thread, end, rounds) && (rounds != [] ==> rounds[|rounds| - 1].again) && time >= end
    ensures var h := Polls(rounds, Some(time));
      && h.Lawful(options, thread, end) && !h.Done()
      && before + FlatRounds(rounds) + [Shown(time)] == before + h.Trace()
  {
  }

  lemma LeftAtRound(options: Options, thread: Json, end: real, before: seq<Event>, rounds: seq<Round>, round: Round)
    requires Going(options, thread, end, rounds) && rounds != [] && rounds[|rounds| - 1] == round && !round.again
    ensures var h := Polls(rounds, None);
      && h.Lawful(options, thread, end) && (h.Done() <==> round.Done())
      && before + FlatRounds(rounds) == before + h.Trace()
  {
  }

  /** One round and, if the loop goes on, the sleep. */
  method PollOnce(w: World, options: Options, thread: Json, end: real, p: Progress, time: real,
                  ghost before: seq<Event>, ghost rounds: seq<Round>)
    returns (r: Result<Progress>, again: bool, ghost rounds': seq<Round>, ghost round: Round)
    requires w.trace == before + FlatRounds(rounds) + [Shown(time)] && w.Valid()
    requires Going(options, thread, end, rounds) && p == Known(rounds) && time < end
    requires rounds != [] ==> rounds[|rounds| - 1].again
    modifies w
    ensures w.trace == before + FlatRounds(rounds') && w.Valid()
    ensures rounds' == rounds + [round] && Going(options, thread, end, rounds')
    ensures Slack(|rounds'|) == Slack(|rounds|) + 0.2
    ensures again == round.again
    ensures r.Ok? ==> r.value == Known(rounds')
    ensures if r.Ok? && !again then round.Done() else !round.Done()
    ensures again ==> r.Ok?
    ensures w.Now() >= old(w.Now()) + if again then 0.2 else 0.0
  {
    r, again, round := PollRound(w, options, thread, p, time);
    rounds' := rounds + [round];
    StillGoing(options, thread, end, rounds, round);
    OneMoreRound(rounds, round);
    RoundAppended(before, rounds, round);
    if again {
      w.SleepABit();
    }
  }

  method Poll(w: World, options: Options, thread: Json, end: real) returns (r: Result<Json>, ghost h: Polls)
    requires w.Valid()
    modifies w
    ensures w.trace == old(w.trace) + h.Trace() && w.Valid()
    ensures h.Lawful(options, thread, end)
    ensures if r.Ok? then h.Done() && r.value == h.First() else !h.Done()
    ensures LoopTimed(old(w.Now()), w.Now(), end, |h.rounds|)
  {
    ghost var start, rounds, before := w.Now(), [], w.trace;
    var p := Unenrolled;
    var time := w.ReadClock();
    while time < end
      invariant w.trace == before + FlatRounds(rounds) + [Shown(time)] && w.Valid()
      invariant Going(options, thread, end, rounds) && p == Known(rounds)
      invariant rounds != [] ==> rounds[|rounds| - 1].again
      invariant w.Now() >= time >= start + Slack(|rounds|)
      invariant rounds != [] ==> start + Slack(|rounds|) - 0.2 < end
      decreases (end - time) * 5.0
    {
      var known, again;
      ghost var round;
      known, again, rounds, round := PollOnce(w, options, thread, end, p, time, before, rounds);
      if !again {
        h := Polls(rounds, None);
        LeftAtRound(options, thread, end, before, rounds, round);
        r := if known.Ok? then Ok(known.value.first.GetOr(Null)) else Err(known.error);
        return;
      }
      p := known.value;
      time := w.ReadClock();
    }
    h := Polls(rounds, Some(time));
    LeftLate(options, thread, end, before, rounds, time);
    r := Err(Refused);
  }
}
