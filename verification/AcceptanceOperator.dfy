/** The last part of `run` in scripts/goal_supervision_real_acceptance.py, for every
    environment: the operator's turn while the goal is paused, and the final accounting. */
module AcceptanceOperator {
  import Word
  import opened Values
  import opened Native
  import opened Receipts
  import opened Readings

  // --------------------------------------------------------------- the reply, and after

  /** The operator's turn once it is completed; its reply must then be the expected one. */
  function CompletedTurn(reply: Result<Json>, operator: Json): Result<Option<Json>> {
    var turns :- TurnsIn(reply);
    var current :- FindTurn(turns, operator);
    if current.None? then Ok(None)
    else
      var status :- Index(current.value, Word.Status);
      if status != Str(Word.Completed) then Ok(None)
      else if RepliedOk(current.value) then Ok(current)
      else Err(Refused)
  }

  /** The operator's turn is not there yet, or not completed. */
  ghost predicate TurnPending(reply: Result<Json>, operator: Json) {
    ShowsTurns(reply) && AwaitedFrom(ShownTurns(reply), operator)
  }

  /** The operator's turn is completed with the reply asked for. */
  ghost predicate TurnCompleted(reply: Result<Json>, operator: Json) {
    ShowsTurns(reply) && AnsweredBy(ShownTurns(reply), operator)
  }

  lemma CompletedTurnIs(reply: Result<Json>, operator: Json)
    ensures var r := CompletedTurn(reply, operator);
      && (r == Ok(None) <==> TurnPending(reply, operator))
      && (r.Ok? && r.value.Some? <==> TurnCompleted(reply, operator))
  {
    if ShowsTurns(reply) {
      var turns := ShownTurns(reply);
      assert TurnsIn(reply) == Ok(turns);
      FindTurnIs(turns, operator);
      var found := FindTurn(turns, operator);
      if found.Ok? && found.value.Some? {
        FoundIs(turns, operator, found.value.value);
      } else {
        assert forall k :: !FirstCalled(turns, k, operator);
      }
    }
  }

  /** What the turn that is found says of all of them. */
  lemma FoundIs(turns: seq<Json>, operator: Json, turn: Json)
    requires exists k :: FirstCalled(turns, k, operator) && turns[k] == turn
    ensures AwaitedFrom(turns, operator) <==> HasKey(turn, Word.Status) && !Has(turn, Word.Status, Str(Word.Completed))
    ensures AnsweredBy(turns, operator) <==> Has(turn, Word.Status, Str(Word.Completed)) && RepliedOk(turn)
  {
    var k :| FirstCalled(turns, k, operator) && turns[k] == turn;
    NoneIsFirst(turns, k, operator);
    forall j | FirstCalled(turns, j, operator) ensures j == k {
      OneIsFirst(turns, j, k, operator);
    }
    if HasKey(turn, Word.Items) && turn.fields[Word.Items].Arr? {
      var items := turn.fields[Word.Items].items;
      SaysOkIs(items);
      assert Has(turn, Word.Items, Arr(items));
    }
  }

  /** The goal in the reply is not paused, or is none. */
  predicate Resumed(reply: Result<Json>) {
    !Shows(reply, Word.Goal) || !Has(reply.value.fields[Word.Goal], Word.Status, Str(Word.Paused))
  }

  ghost predicate CheckCalls(thread: Json, events: seq<Event>) {
    && 1 <= |events| <= 2
    && events[0].call == GoalGet(thread)
    && (|events| > 1 ==> events[1].call == Save(OperatorReplied))
  }

  ghost predicate CheckPassed(events: seq<Event>) {
    |events| == 2 && !Resumed(events[0].reply) && events[1].reply.Ok?
  }

  ghost predicate CheckStuck(events: seq<Event>) {
    if |events| == 1 then Resumed(events[0].reply)
    else |events| == 2 && !Resumed(events[0].reply) && events[1].reply.Err?
  }

  method CheckStillPaused(w: World, thread: Json) returns (r: Result<()>, ghost events: seq<Event>)
    requires w.Valid()
    modifies w
    ensures w.trace == old(w.trace) + events && w.Now() >= old(w.Now()) && w.Valid()
    ensures CheckCalls(thread, events)
    ensures if r.Ok? then CheckPassed(events) else CheckStuck(events)
  {
    var read := w.Ask(GoalGet(thread));
    events := [Did(GoalGet(thread), read)];
    :- Require(!Resumed(read));
    var saved := w.Ask(Save(OperatorReplied));
    events := events + [Did(Save(OperatorReplied), saved)];
    var _ :- saved;
    r := Ok(());
  }

  /** One round: a reading of the clock, the turns, and the goal once the turn is completed. */
  datatype Wait = Wait(time: real, read: Event, check: Option<seq<Event>>, again: bool) {
    ghost function Trace(): seq<Event> {
      [Shown(time)] + Work() + Pause()
    }

    ghost function Work(): seq<Event> {
      if check.Some? then [read] + check.value else [read]
    }

    ghost function Pause(): seq<Event> {
      if again then [Slept] else []
    }

    ghost predicate Lawful(thread: Json, operator: Json) {
      && read.call == ThreadRead(thread)
      && if check.Some? then
           && !again && TurnCompleted(read.reply, operator) && CheckCalls(thread, check.value)
           && if Done() then CheckPassed(check.value) else CheckStuck(check.value)
         else if again then TurnPending(read.reply, operator)
         else !TurnPending(read.reply, operator) && !TurnCompleted(read.reply, operator)
    }

    ghost predicate Done() {
      check.Some? && |check.value| == 2 && check.value[1].reply.Ok?
    }
  }

  /** `false`: the turn is not completed yet. */
  method WaitRound(w: World, thread: Json, operator: Json, time: real) returns (r: Result<bool>, ghost round: Wait)
    requires w.Valid()
    modifies w
    ensures w.trace == old(w.trace) + round.Work() && w.Now() >= old(w.Now()) && w.Valid()
    ensures round.time == time && round.Lawful(thread, operator)
    ensures (round.again <==> r.Ok? && !r.value) && (round.Done() <==> r.Ok? && r.value)
  {
    var read := w.Ask(ThreadRead(thread));
    ghost var event := Did(ThreadRead(thread), read);
    CompletedTurnIs(read, operator);
    round := Wait(time, event, None, TurnPending(read, operator));
    var current :- CompletedTurn(read, operator);
    if current.None? {
      return Ok(false), round;
    }
    var paused, check := CheckStillPaused(w, thread);
    round := Wait(time, event, Some(check), false);
    Regroup(old(w.trace), [event], check);
    var _ :- paused;
    r := Ok(true);
  }

  ghost function FlatWaits(rounds: seq<Wait>): seq<Event> {
    if rounds == [] then [] else FlatWaits(rounds[..|rounds| - 1]) + rounds[|rounds| - 1].Trace()
  }

  /** Each round is lawful and begins in time, and all but the last go on. */
  ghost predicate Waiting(thread: Json, operator: Json, end: real, rounds: seq<Wait>) {
    rounds != [] ==>
      && var before, last := rounds[..|rounds| - 1], rounds[|rounds| - 1];
      && Waiting(thread, operator, end, before)
      && (before != [] ==> before[|before| - 1].again)
      && last.time < end && last.Lawful(thread, operator)
  }

  datatype Waits = Waits(rounds: seq<Wait>, late: Option<real>) {
    ghost function Trace(): seq<Event> {
      FlatWaits(rounds) + TooLate(late)
    }

    /** The loop is left by a last round that does not go on, or when time is up. */
    ghost predicate Lawful(thread: Json, operator: Json, end: real) {
      && Waiting(thread, operator, end, rounds)
      && if late.Some? then late.value >= end && (rounds != [] ==> Last().again) else rounds != [] && !Last().again
    }

    ghost function Last(): Wait
      requires rounds != []
    {
      rounds[|rounds| - 1]
    }

    ghost predicate Done() {
      late.None? && rounds != [] && Last().Done()
    }
  }

  lemma OneMoreWait(rounds: seq<Wait>, round: Wait)
    ensures FlatWaits(rounds + [round]) == FlatWaits(rounds) + round.Trace()
  {
    var all := rounds + [round];
    assert all[..|all| - 1] == rounds && all[|all| - 1] == round;
  }

  lemma WaitAppended(before: seq<Event>, rounds: seq<Wait>, round: Wait)
    ensures before + FlatWaits(rounds) + [Shown(round.time)] + round.Work() + round.Pause() == before + FlatWaits(rounds + [round])
  {
    OneMoreWait(rounds, round);
    RoundRegroup(before, FlatWaits(rounds), [Shown(round.time)], round.Work(), round.Pause());
  }

  lemma StillWaiting(thread: Json, operator: Json, end: real, rounds: seq<Wait>, round: Wait)
    requires Waiting(thread, operator, end, rounds) && (rounds != [] ==> rounds[|rounds| - 1].again)
    requires round.time < end && round.Lawful(thread, operator)
    ensures Waiting(thread, operator, end, rounds + [round])
  {
    var all := rounds + [round];
    assert all[..|all| - 1] == rounds && all[|all| - 1] == round;
  }

  lemma WaitsLate(thread: Json, operator: Json, end: real, before: seq<Event>, rounds: seq<Wait>, time: real)
    requires Waiting(thread, operator, end, rounds) && (rounds != [] ==> rounds[|rounds| - 1].again) && time >= end
    ensures var h := Waits(rounds, Some(time));
      && h.Lawful(thread, operator, end) && !h.Done()
      && before + FlatWaits(rounds) + [Shown(time)] == before + h.Trace()
  {
  }

  lemma WaitsLeft(thread: Json, operator: Json, end: real, before: seq<Event>, rounds: seq<Wait>, round: Wait)
    requires Waiting(thread, operator, end, rounds) && rounds != [] && rounds[|rounds| - 1] == round && !round.again
    ensures var h := Waits(rounds, None);
      && h.Lawful(thread, operator, end) && (h.Done() <==> round.Done())
      && before + FlatWaits(rounds) == before + h.Trace()
  {
  }

  /** One round and, if the loop goes on, the sleep. */
  method WaitOnce(w: World, thread: Json, operator: Json, end: real, time: real, ghost before: seq<Event>, ghost rounds: seq<Wait>)
    returns (r: Result<bool>, ghost rounds': seq<Wait>, ghost round: Wait)
    requires w.trace == before + FlatWaits(rounds) + [Shown(time)]
    requires Waiting(thread, operator, end, rounds) && time < end
    requires rounds != [] ==> rounds[|rounds| - 1].again
    requires w.Valid()
    modifies w
    ensures w.trace == before + FlatWaits(rounds') && w.Valid()
    ensures rounds' == rounds + [round] && Waiting(thread, operator, end, rounds')
    ensures Slack(|rounds'|) == Slack(|rounds|) + 0.2
    ensures (round.again <==> r.Ok? && !r.value) && (round.Done() <==> r.Ok? && r.value)
    ensures w.Now() >= old(w.Now()) + if round.again then 0.2 else 0.0
  {
    r, round := WaitRound(w, thread, operator, time);
    rounds' := rounds + [round];
    StillWaiting(thread, operator, end, rounds, round);
    WaitAppended(before, rounds, round);
    if r.Ok? && !r.value {
      w.SleepABit();
    }
  }

  /** The operator loop. */
  method AwaitReply(w: World, thread: Json, operator: Json, end: real) returns (r: Result<()>, ghost h: Waits)
    requires w.Valid()
    modifies w
    ensures w.trace == old(w.trace) + h.Trace() && w.Valid()
    ensures h.Lawful(thread, operator, end)
    ensures r.Ok? <==> h.Done()
    ensures LoopTimed(old(w.Now()), w.Now(), end, |h.rounds|)
  {
    ghost var start, rounds, before := w.Now(), [], w.trace;
    var time := w.ReadClock();
    while time < end
      invariant w.trace == before + FlatWaits(rounds) + [Shown(time)]
      invariant w.Valid()
      invariant Waiting(thread, operator, end, rounds) && (rounds != [] ==> rounds[|rounds| - 1].again)
      invariant w.Now() >= time >= start + Slack(|rounds|)
      invariant rounds != [] ==> start + Slack(|rounds|) - 0.2 < end
      decreases (end - time) * 5.0
    {
      var done;
      ghost var more, round;
      done, more, round := WaitOnce(w, thread, operator, end, time, before, rounds);
      rounds := more;
      if done.Err? || done.value {
        h := Waits(rounds, None);
        WaitsLeft(thread, operator, end, before, rounds, round);
        r := if done.Ok? then Ok(()) else Err(done.error);
        return;
      }
      time := w.ReadClock();
    }
    h := Waits(rounds, Some(time));
    WaitsLate(thread, operator, end, before, rounds, time);
    r := Err(Refused);
  }

  // -------------------------------------------------------------------------- audit

  /** Whether a raw replay is qualified and agrees with the status on the tokens used. */
  function Agreement(replay: Json, status: Json): (r: Result<bool>)
    ensures r == Ok(true) <==> Replays(replay, status)
    ensures r == Ok(false) <==> Disagrees(replay, status)
  {
    if !replay.Obj? then Err(Malformed)
    else if Get(replay, Word.State) != Str(Word.Qualified) then Ok(false)
    else
      var used :- Index(replay, Word.UsedTokens);
      Ok(used == Used(status))
  }

  /** A status that was read and is qualified under the enrollment `first`. */
  predicate QualifiedReply(reply: Result<Json>, options: Options, first: Json) {
    reply.Ok? && Qualified(reply.value, options, first)
  }

  ghost predicate AuditCalls(thread: Json, created: Result<Json>, events: seq<Event>) {
    && |events| <= 2
    && (|events| > 0 ==> created.Ok? && events[0].call == ObserveRaw(thread, created.value))
    && (|events| > 1 ==> events[1].call == ReadStatus(thread))
  }

  /** Both readings were made, and the status is qualified. */
  ghost predicate BothRead(options: Options, first: Json, events: seq<Event>) {
    |events| == 2 && events[0].reply.Ok? && QualifiedReply(events[1].reply, options, first)
  }

  ghost predicate Unreconciled(options: Options, first: Json, events: seq<Event>) {
    BothRead(options, first, events) && Disagrees(events[0].reply.value, events[1].reply.value)
  }

  /** A raw replay and the status read right after it, which agree on the tokens used. */
  ghost predicate Reconciled(options: Options, first: Json, events: seq<Event>) {
    BothRead(options, first, events) && Replays(events[0].reply.value, events[1].reply.value)
  }

  ghost predicate AuditStuck(options: Options, first: Json, created: Result<Json>, events: seq<Event>) {
    if created.Err? then events == []
    else if |events| == 1 then events[0].reply.Err?
    else
      && |events| == 2 && events[0].reply.Ok?
      && (|| !QualifiedReply(events[1].reply, options, first)
          || (!Replays(events[0].reply.value, events[1].reply.value) && !Disagrees(events[0].reply.value, events[1].reply.value)))
  }

  /** The raw replay and, right after it, the status; the result says whether they agree. */
  method ReadBoth(w: World, options: Options, thread: Json, first: Json, created: Result<Json>)
    returns (r: Result<bool>, status: Json, ghost events: seq<Event>)
    requires w.Valid()
    modifies w
    ensures w.trace == old(w.trace) + events && w.Now() >= old(w.Now()) && w.Valid()
    ensures AuditCalls(thread, created, events)
    ensures r.Ok? ==> |events| == 2 && events[1].reply == Ok(status)
    ensures r.Ok? ==> if r.value then Reconciled(options, first, events) else Unreconciled(options, first, events)
    ensures r.Err? ==> AuditStuck(options, first, created, events)
  {
    status, events := Null, [];
    var at :- created;
    var observed := w.Ask(ObserveRaw(thread, at));
    events := [Did(ObserveRaw(thread, at), observed)];
    var replay :- observed;
    var read := w.Ask(ReadStatus(thread));
    events := events + [Did(ReadStatus(thread), read)];
    status :- read;
    :- Require(Qualified(status, options, first));
    r := Agreement(replay, status);
  }

  /** One round: a reading of the clock, the two readings, and the record if they agree. */
  datatype Audit = Audit(time: real, events: seq<Event>, saved: Option<Event>, again: bool) {
    ghost function Trace(): seq<Event> {
      [Shown(time)] + Work() + Pause()
    }

    ghost function Work(): seq<Event> {
      if saved.Some? then events + [saved.value] else events
    }

    ghost function Pause(): seq<Event> {
      if again then [Slept] else []
    }

    ghost predicate Lawful(options: Options, thread: Json, first: Json, created: Result<Json>) {
      && AuditCalls(thread, created, events)
      && if saved.Some? then !again && Reconciled(options, first, events) && saved.value.call == Save(RawReplay)
         else if again then Unreconciled(options, first, events)
         else AuditStuck(options, first, created, events)
    }

    ghost predicate Done() {
      saved.Some? && saved.value.reply.Ok?
    }

    /** The status that was read. */
    ghost function Status(): Json {
      if |events| > 1 then events[1].reply.GetOr(Null) else Null
    }
  }

  /** Unless the loop goes on, the status with which the replay reconciles. */
  method AuditRound(w: World, options: Options, thread: Json, first: Json, created: Result<Json>, time: real)
    returns (r: Result<Json>, again: bool, ghost round: Audit)
    requires w.Valid()
    modifies w
    ensures w.trace == old(w.trace) + round.Work() && w.Now() >= old(w.Now()) && w.Valid()
    ensures round.time == time && round.Lawful(options, thread, first, created)
    ensures again == round.again
    ensures if r.Ok? && !again then round.Done() && r.value == round.Status() else !round.Done()
  {
    again := false;
    var agreed, status, events := ReadBoth(w, options, thread, first, created);
    round := Audit(time, events, None, false);
    var agree :- agreed;
    r := Ok(status);
    if agree {
      var saved := w.Ask(Save(RawReplay));
      round := Audit(time, events, Some(Did(Save(RawReplay), saved)), false);
      r := if saved.Ok? then r else Err(saved.error);
    } else {
      again := true;
      round := Audit(time, events, None, true);
    }
  }

  ghost function FlatAudits(rounds: seq<Audit>): seq<Event> {
    if rounds == [] then [] else FlatAudits(rounds[..|rounds| - 1]) + rounds[|rounds| - 1].Trace()
  }

  /** Each round is lawful and begins in time, and all but the last go on. */
  ghost predicate Auditing(options: Options, thread: Json, first: Json, created: Result<Json>, end: real, rounds: seq<Audit>) {
    rounds != [] ==>
      && var before, last := rounds[..|rounds| - 1], rounds[|rounds| - 1];
      && Auditing(options, thread, first, created, end, before)
      && (before != [] ==> before[|before| - 1].again)
      && last.time < end && last.Lawful(options, thread, first, created)
  }

  datatype Audits = Audits(rounds: seq<Audit>, late: Option<real>) {
    ghost function Trace(): seq<Event> {
      FlatAudits(rounds) + TooLate(late)
    }

    /** The loop is left by a last round that does not go on, or when time is up. */
    ghost predicate Lawful(options: Options, thread: Json, first: Json, created: Result<Json>, end: real) {
      && Auditing(options, thread, first, created, end, rounds)
      && if late.Some? then late.value >= end && (rounds != [] ==> Last().again) else rounds != [] && !Last().again
    }

    ghost function Last(): Audit
      requires rounds != []
    {
      rounds[|rounds| - 1]
    }

    ghost predicate Done() {
      late.None? && rounds != [] && Last().Done()
    }

    /** The status that the last replay agrees with. */
    ghost function Final(): Json {
      if rounds != [] then Last().Status() else Null
    }
  }

  lemma OneMoreAudit(rounds: seq<Audit>, round: Audit)
    ensures FlatAudits(rounds + [round]) == FlatAudits(rounds) + round.Trace()
  {
    var all := rounds + [round];
    assert all[..|all| - 1] == rounds && all[|all| - 1] == round;
  }

  lemma AuditAppended(before: seq<Event>, rounds: seq<Audit>, round: Audit)
    ensures before + FlatAudits(rounds) + [Shown(round.time)] + round.Work() + round.Pause() == before + FlatAudits(rounds + [round])
  {
    OneMoreAudit(rounds, round);
    RoundRegroup(before, FlatAudits(rounds), [Shown(round.time)], round.Work(), round.Pause());
  }

  lemma StillAuditing(options: Options, thread: Json, first: Json, created: Result<Json>, end: real, rounds: seq<Audit>, round: Audit)
    requires Auditing(options, thread, first, created, end, rounds) && (rounds != [] ==> rounds[|rounds| - 1].again)
    requires round.time < end && round.Lawful(options, thread, first, created)
    ensures Auditing(options, thread, first, created, end, rounds + [round])
  {
    var all := rounds + [round];
    assert all[..|all| - 1] == rounds && all[|all| - 1] == round;
  }

  lemma AuditsLate(options: Options, thread: Json, first: Json, created: Result<Json>, end: real, before: seq<Event>,
                   rounds: seq<Audit>, time: real)
    requires Auditing(options, thread, first, created, end, rounds) && (rounds != [] ==> rounds[|rounds| - 1].again) && time >= end
    ensures var h := Audits(rounds, Some(time));
      && h.Lawful(options, thread, first, created, end) && !h.Done()
      && before + FlatAudits(rounds) + [Shown(time)] == before + h.Trace()
  {
  }

  lemma AuditsLeft(options: Options, thread: Json, first: Json, created: Result<Json>, end: real, before: seq<Event>,
                   rounds: seq<Audit>, round: Audit)
    requires Auditing(options, thread, first, created, end, rounds) && rounds != [] && rounds[|rounds| - 1] == round && !round.again
    ensures var h := Audits(rounds, None);
      && h.Lawful(options, thread, first, created, end) && h.Done() == round.Done() && h.Final() == round.Status()
      && before + FlatAudits(rounds) == before + h.Trace()
  {
  }

  /** One round and, if the loop goes on, the sleep. */
  method AuditOnce(w: World, options: Options, thread: Json, first: Json, created: Result<Json>, end: real, time: real,
                   ghost before: seq<Event>, ghost rounds: seq<Audit>)
    returns (r: Result<Json>, again: bool, ghost rounds': seq<Audit>, ghost round: Audit)
    requires w.trace == before + FlatAudits(rounds) + [Shown(time)] && w.Valid()
    requires Auditing(options, thread, first, created, end, rounds) && time < end
    requires rounds != [] ==> rounds[|rounds| - 1].again
    modifies w
    ensures w.trace == before + FlatAudits(rounds') && w.Valid()
    ensures rounds' == rounds + [round] && Auditing(options, thread, first, created, end, rounds')
    ensures Slack(|rounds'|) == Slack(|rounds|) + 0.2
    ensures again == round.again
    ensures if r.Ok? && !again then round.Done() && r.value == round.Status() else !round.Done()
    ensures w.Now() >= old(w.Now()) + if again then 0.2 else 0.0
  {
    r, again, round := AuditRound(w, options, thread, first, created, time);
    rounds' := rounds + [round];
    StillAuditing(options, thread, first, created, end, rounds, round);
    AuditAppended(before, rounds, round);
    if again {
      w.SleepABit();
    }
  }

  /** The audit loop, until `end`; the result is the reconciled status. */
  method AuditUntil(w: World, options: Options, thread: Json, first: Json, created: Result<Json>, end: real)
    returns (r: Result<Json>, ghost h: Audits)
    requires w.Valid()
    modifies w
    ensures w.trace == old(w.trace) + h.Trace() && w.Valid()
    ensures h.Lawful(options, thread, first, created, end)
    ensures if r.Ok? then h.Done() && r.value == h.Final() else !h.Done()
    ensures LoopTimed(old(w.Now()), w.Now(), end, |h.rounds|)
  {
    ghost var start, rounds, before := w.Now(), [], w.trace;
    var time := w.ReadClock();
    while time < end
      invariant w.trace == before + FlatAudits(rounds) + [Shown(time)] && w.Valid()
      invariant Auditing(options, thread, first, created, end, rounds) && (rounds != [] ==> rounds[|rounds| - 1].again)
      invariant w.Now() >= time >= start + Slack(|rounds|)
      invariant rounds != [] ==> start + Slack(|rounds|) - 0.2 < end
      decreases (end - time) * 5.0
    {
      var again;
      ghost var round;
      r, again, rounds, round := AuditOnce(w, options, thread, first, created, end, time, before, rounds);
      if !again {
        h := Audits(rounds, None);
        AuditsLeft(options, thread, first, created, end, before, rounds, round);
        return;
      }
      time := w.ReadClock();
    }
    h := Audits(rounds, Some(time));
    AuditsLate(options, thread, first, created, end, before, rounds, time);
    r := Err(Refused);
  }

  // --------------------------------------------------------------------- accounting

  function Earlier(a: real, b: real): (c: real)
    ensures c <= a && c <= b && (c == a || c == b)
  {
    if a < b then a else b
  }

  /** The audit: at most five seconds from the reading of the clock at `begun`. */
  datatype AuditHistory = AuditHistory(begun: real, audits: Audits) {
    ghost function Trace(): seq<Event> {
      [Shown(begun)] + audits.Trace()
    }

    ghost predicate Lawful(options: Options, thread: Json, first: Json, created: Result<Json>, end: real) {
      audits.Lawful(options, thread, first, created, Earlier(end, begun + 5.0))
    }
  }

  method AuditUsage(w: World, options: Options, thread: Json, first: Json, created: Result<Json>, end: real)
    returns (r: Result<Json>, ghost h: AuditHistory)
    requires w.Valid()
    modifies w
    ensures w.trace == old(w.trace) + h.Trace() && w.Valid()
    ensures h.Lawful(options, thread, first, created, end)
    ensures if r.Ok? then h.audits.Done() && r.value == h.audits.Final() else !h.audits.Done()
    ensures LoopTimed(old(w.Now()), w.Now(), end, |h.audits.rounds|)
  {
    ghost var from := w.Now();
    var begun := w.ReadClock();
    ghost var at, audits := w.Now(), Audits([], None);
    r, audits := AuditUntil(w, options, thread, first, created, Earlier(end, begun + 5.0));
    h := AuditHistory(begun, audits);
    TimedLater(from, at, w.Now(), Earlier(end, begun + 5.0), end, |audits.rounds|);
    Regroup(old(w.trace), [Shown(begun)], audits.Trace());
  }

  /** The last status, audited exactly if it is qualified and there is an observer. */
  datatype FinalRead = FinalRead(status: Event, audit: Option<AuditHistory>) {
    ghost function Trace(): seq<Event> {
      if audit.Some? then [status] + audit.value.Trace() else [status]
    }

    ghost predicate Lawful(options: Options, thread: Json, first: Json, created: Result<Json>, end: real) {
      && status.call == ReadStatus(thread)
      && (audit.Some? <==> QualifiedReply(status.reply, options, first) && options.observer)
      && (audit.Some? ==> audit.value.Lawful(options, thread, first, created, end))
    }

    /** The last status is qualified and, with an observer, reconciled. */
    ghost predicate Done(options: Options, first: Json) {
      QualifiedReply(status.reply, options, first) && (audit.Some? ==> audit.value.audits.Done())
    }

    /** The last status read. */
    ghost function Final(): Json {
      if audit.Some? then audit.value.audits.Final() else status.reply.GetOr(Null)
    }

    ghost function Rounds(): nat {
      if audit.Some? then |audit.value.audits.rounds| else 0
    }
  }

  method ReadFinal(w: World, options: Options, thread: Json, first: Json, created: Result<Json>, end: real)
    returns (r: Result<Json>, ghost h: FinalRead)
    requires w.Valid()
    modifies w
    ensures w.trace == old(w.trace) + h.Trace() && w.Valid()
    ensures h.Lawful(options, thread, first, created, end)
    ensures if r.Ok? then h.Done(options, first) && r.value == h.Final() else !h.Done(options, first)
    ensures LoopTimed(old(w.Now()), w.Now(), end, h.Rounds())
  {
    var read := w.Ask(ReadStatus(thread));
    ghost var status := Did(ReadStatus(thread), read);
    h := FinalRead(status, None);
    r := if QualifiedReply(read, options, first) then read else Err(Refused);
    if r.Ok? && options.observer {
      ghost var audit;
      r, audit := AuditUsage(w, options, thread, first, created, end);
      h := FinalRead(status, Some(audit));
      Regroup(old(w.trace), [status], audit.Trace());
    }
  }

  /** The accounting: the last status, saved once it is done with. */
  datatype Account = Account(read: FinalRead, saved: Option<Event>) {
    ghost function Trace(): seq<Event> {
      if saved.Some? then read.Trace() + [saved.value] else read.Trace()
    }

    ghost predicate Lawful(options: Options, thread: Json, first: Json, created: Result<Json>, end: real) {
      && read.Lawful(options, thread, first, created, end)
      && (saved.Some? <==> read.Done(options, first))
      && (saved.Some? ==> saved.value.call == Save(LastStatus))
    }

    ghost predicate Done() {
      saved.Some? && saved.value.reply.Ok? && Index(read.Final(), Word.UsedTokens).Ok?
    }
  }

  /** The result is the usage reported. */
  method Conclude(w: World, options: Options, thread: Json, first: Json, created: Result<Json>, end: real)
    returns (r: Result<Json>, ghost h: Account)
    requires w.Valid()
    modifies w
    ensures w.trace == old(w.trace) + h.Trace() && w.Valid()
    ensures h.Lawful(options, thread, first, created, end)
    ensures if r.Ok? then h.Done() && r == Index(h.read.Final(), Word.UsedTokens) else !h.Done()
    ensures LoopTimed(old(w.Now()), w.Now(), end, h.read.Rounds())
  {
    ghost var read;
    r, read := ReadFinal(w, options, thread, first, created, end);
    h := Account(read, None);
    var status :- r;
    var saved := w.Ask(Save(LastStatus));
    h := Account(read, Some(Did(Save(LastStatus), saved)));
    r := if saved.Ok? then Index(status, Word.UsedTokens) else saved;
  }

  // ------------------------------------------------------------------ operator's turn

  /** The wait for the reply, and the accounting exactly once it was given. */
  datatype ReplyHistory = ReplyHistory(waits: Waits, account: Option<Account>) {
    ghost function Trace(): seq<Event> {
      if account.Some? then waits.Trace() + account.value.Trace() else waits.Trace()
    }

    ghost predicate Lawful(options: Options, thread: Json, operator: Json, first: Json, created: Result<Json>, end: real) {
      && waits.Lawful(thread, operator, end)
      && (account.Some? <==> waits.Done())
      && (account.Some? ==> account.value.Lawful(options, thread, first, created, end))
    }

    ghost predicate Done() {
      account.Some? && account.value.Done()
    }

    ghost function Final(): Json {
      if account.Some? then account.value.read.Final() else Null
    }

    ghost function Audited(): nat {
      if account.Some? then account.value.read.Rounds() else 0
    }
  }

  /** `begun` is when the accounting began. */
  method ReplyAndConclude(w: World, options: Options, thread: Json, operator: Json, first: Json, created: Result<Json>, end: real)
    returns (r: Result<Json>, ghost h: ReplyHistory, ghost begun: real)
    requires w.Valid()
    modifies w
    ensures w.trace == old(w.trace) + h.Trace() && w.Valid()
    ensures h.Lawful(options, thread, operator, first, created, end)
    ensures if r.Ok? then h.Done() && r == Index(h.Final(), Word.UsedTokens) else !h.Done()
    ensures LoopTimed(old(w.Now()), begun, end, |h.waits.rounds|)
    ensures LoopTimed(begun, w.Now(), end, h.Audited())
  {
    var replied, waits := AwaitReply(w, thread, operator, end);
    begun := w.Now();
    h := ReplyHistory(waits, None);
    if replied.Ok? {
      ghost var account;
      r, account := Conclude(w, options, thread, first, created, end);
      h := ReplyHistory(waits, Some(account));
      Regroup(old(w.trace), waits.Trace(), account.Trace());
    } else {
      r := Err(replied.error);
    }
  }

  /** The start of the turn, and what follows once its identity is known. */
  datatype OperatorHistory = OperatorHistory(start: Event, rest: Option<ReplyHistory>) {
    ghost function Trace(): seq<Event> {
      if rest.Some? then [start] + rest.value.Trace() else [start]
    }

    ghost predicate Lawful(options: Options, thread: Json, first: Json, created: Result<Json>, end: real) {
      && start.call == TurnStart(thread)
      && (rest.Some? <==> OperatorTurn(start.reply).Ok?)
      && (rest.Some? ==> rest.value.Lawful(options, thread, Operator(), first, created, end))
    }

    ghost function Operator(): Json {
      OperatorTurn(start.reply).GetOr(Null)
    }

    ghost predicate Done() {
      rest.Some? && rest.value.Done()
    }

    ghost function Final(): Json {
      if rest.Some? then rest.value.Final() else Null
    }

    ghost function Waited(): nat {
      if rest.Some? then |rest.value.waits.rounds| else 0
    }

    ghost function Audited(): nat {
      if rest.Some? then rest.value.Audited() else 0
    }
  }

  /** The operator's turn and what is concluded after it; the result is the usage reported.
      The turn is waited for from `replying` on, and the accounting begins at `begun`. */
  method Operate(w: World, options: Options, thread: Json, first: Json, goal: Json, end: real)
    returns (r: Result<Json>, ghost h: OperatorHistory, ghost replying: real, ghost begun: real)
    requires w.Valid()
    modifies w
    ensures w.trace == old(w.trace) + h.Trace() && w.Valid()
    ensures h.Lawful(options, thread, first, Index(goal, Word.CreatedAt), end)
    ensures if r.Ok? then h.Done() && r == Index(h.Final(), Word.UsedTokens) else !h.Done()
    ensures old(w.Now()) <= replying && LoopTimed(replying, begun, end, h.Waited())
    ensures LoopTimed(begun, w.Now(), end, h.Audited())
  {
    var started := w.Ask(TurnStart(thread));
    ghost var start := Did(TurnStart(thread), started);
    h := OperatorHistory(start, None);
    replying, begun := w.Now(), w.Now();
    if OperatorTurn(started).Ok? {
      ghost var rest;
      r, rest, begun := ReplyAndConclude(w, options, thread, OperatorTurn(started).value, first, Index(goal, Word.CreatedAt), end);
      h := OperatorHistory(start, Some(rest));
      Regroup(old(w.trace), [start], rest.Trace());
    } else {
      r := Err(Malformed);
    }
  }
}
