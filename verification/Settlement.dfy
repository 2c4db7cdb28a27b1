/** `settle_owned_successor` and `call_source_mcp` of scripts/agent_handoff_acceptance.py:
    nothing is touched before its owner has been read. */
module Settlement {
  import Word
  import opened Values
  import opened Native

  datatype Handoff = Handoff(target: Json, goal: Json, submission: Result<Json>)

  datatype Settled = Settled(goal: Json, interrupted: seq<Json>)

  /** The four fields that identify a goal. */
  predicate SameGoal(goal: Json, saved: Json) {
    && Get(goal, Word.ThreadId) == Get(saved, Word.ThreadId) && Get(goal, Word.Objective) == Get(saved, Word.Objective)
    && Get(goal, Word.TokenBudget) == Get(saved, Word.TokenBudget) && Get(goal, Word.CreatedAt) == Get(saved, Word.CreatedAt)
  }

  predicate OwnedGoal(goal: Json, h: Handoff) {
    Truthy(goal) && Truthy(h.goal) && goal.Obj? && h.goal.Obj? && SameGoal(goal, h.goal)
  }

  /** The turns in progress; a turn that is not an object raises. */
  function RunningTurns(turns: seq<Json>): (r: Result<seq<Json>>)
    ensures r.Ok? ==> forall t :: t in r.value <==> t in turns && Running(t)
  {
    if turns == [] then Ok([])
    else if !turns[0].Obj? then Err(Malformed)
    else
      var rest :- RunningTurns(turns[1..]);
      assert turns == [turns[0]] + turns[1..];
      Ok((if Running(turns[0]) then [turns[0]] else []) + rest)
  }

  /** The thread that was read, which must be the target, and its running turns. */
  function ReadTarget(reply: Result<Json>, target: Json): Result<seq<Json>> {
    var value :- reply;
    var thread :- Index(value, Word.Thread);
    :- Require(Get(thread, Word.Id) == target);
    var turns :- IndexList(thread, Word.Turns);
    RunningTurns(turns)
  }

  /** Some user message of the turn carries the submission, and no item before it raises. */
  predicate SubmittedIn(items: seq<Json>, submission: Json) {
    items != [] && items[0].Obj? &&
    ((Get(items[0], Word.Type) == Str(Word.UserMessage) && Get(items[0], Word.ClientId) == submission)
     || SubmittedIn(items[1..], submission))
  }

  predicate OwnedTurn(turn: Json, h: Handoff) {
    var items := IndexList(turn, Word.Items);
    items.Ok? && h.submission.Ok? && SubmittedIn(items.value, h.submission.value)
  }

  /** The final read: no turn is in progress any more. */
  function NoneLeft(reply: Result<Json>): Result<()> {
    var value :- reply;
    var thread :- Index(value, Word.Thread);
    var turns :- IndexList(thread, Word.Turns);
    var running :- RunningTurns(turns);
    :- Require(running == []);
    Ok(())
  }

  // ------------------------------------------ what the readings mean, field by field

  /** The goal is there, and has the four fields of the one handed off. */
  ghost predicate HandedOff(goal: Json, h: Handoff) {
    && goal.Obj? && goal != Obj(map[]) && h.goal.Obj? && h.goal != Obj(map[])
    && forall key | key in {Word.ThreadId, Word.Objective, Word.TokenBudget, Word.CreatedAt} :: Get(goal, key) == Get(h.goal, key)
  }

  lemma OwnedGoalIs(goal: Json, h: Handoff)
    ensures OwnedGoal(goal, h) <==> HandedOff(goal, h)
  {
  }

  /** A user message of the turn carries the submission, and every item before it is an object. */
  ghost predicate CarriesSubmission(turn: Json, h: Handoff) {
    && HasKey(turn, Word.Items) && turn.fields[Word.Items].Arr? && h.submission.Ok?
    && CarriedIn(turn.fields[Word.Items].items, h.submission.value)
  }

  ghost predicate CarriedIn(items: seq<Json>, submission: Json) {
    exists k | 0 <= k < |items| ::
      && items[k].Obj? && Has(items[k], Word.Type, Str(Word.UserMessage)) && Get(items[k], Word.ClientId) == submission
      && forall j | 0 <= j < k :: items[j].Obj?
  }

  lemma {:induction false} SubmittedInIs(items: seq<Json>, submission: Json)
    ensures SubmittedIn(items, submission) <==> CarriedIn(items, submission)
  {
    if items != [] {
      var rest := items[1..];
      SubmittedInIs(rest, submission);
      assert forall j | 0 < j < |items| :: items[j] == rest[j - 1];
      if CarriedIn(rest, submission) && items[0].Obj? {
        var k :| 0 <= k < |rest| && rest[k].Obj? && Has(rest[k], Word.Type, Str(Word.UserMessage))
          && Get(rest[k], Word.ClientId) == submission && forall j | 0 <= j < k :: rest[j].Obj?;
        assert items[k + 1] == rest[k];
      }
      if CarriedIn(items, submission) {
        var k :| 0 <= k < |items| && items[k].Obj? && Has(items[k], Word.Type, Str(Word.UserMessage))
          && Get(items[k], Word.ClientId) == submission && forall j | 0 <= j < k :: items[j].Obj?;
        assert k > 0 ==> rest[k - 1] == items[k] && items[0].Obj?;
        assert forall j | 0 <= j < k - 1 :: rest[j] == items[j + 1];
      }
    }
  }

  lemma OwnedTurnIs(turn: Json, h: Handoff)
    ensures OwnedTurn(turn, h) <==> CarriesSubmission(turn, h)
  {
    if HasKey(turn, Word.Items) && turn.fields[Word.Items].Arr? && h.submission.Ok? {
      SubmittedInIs(turn.fields[Word.Items].items, h.submission.value);
    }
  }

  /** Turn `k` is the only one in progress, and every turn is an object. */
  ghost predicate OnlyRunning(turns: seq<Json>, k: int) {
    && 0 <= k < |turns| && Has(turns[k], Word.Status, Str(Word.InProgress))
    && forall j | 0 <= j < |turns| :: turns[j].Obj? && (j != k ==> !Has(turns[j], Word.Status, Str(Word.InProgress)))
  }

  ghost predicate NoneRunning(turns: seq<Json>) {
    forall j | 0 <= j < |turns| :: turns[j].Obj? && !Has(turns[j], Word.Status, Str(Word.InProgress))
  }

  lemma {:induction false} RunningTurnsIs(turns: seq<Json>)
    ensures RunningTurns(turns) == Ok([]) <==> NoneRunning(turns)
    ensures RunningTurns(turns).Ok? && |RunningTurns(turns).value| == 1 <==> exists k :: OnlyRunning(turns, k)
    ensures forall k | OnlyRunning(turns, k) :: RunningTurns(turns) == Ok([turns[k]])
  {
    if turns != [] {
      var first, rest := turns[0], turns[1..];
      RunningTurnsIs(rest);
      assert forall j | 0 < j < |turns| :: turns[j] == rest[j - 1];
      assert forall j | 0 <= j < |rest| :: rest[j] == turns[j + 1];
      if first.Obj? && RunningTurns(rest).Ok? {
        assert RunningTurns(turns) == Ok((if Running(first) then [first] else []) + RunningTurns(rest).value);
      }
      forall k | OnlyRunning(turns, k) ensures RunningTurns(turns) == Ok([turns[k]]) {
        if k > 0 {
          assert OnlyRunning(rest, k - 1) && rest[k - 1] == turns[k];
          assert [] + [turns[k]] == [turns[k]];
        } else {
          assert NoneRunning(rest);
          assert [first] + [] == [first];
        }
      }
      if RunningTurns(turns).Ok? && |RunningTurns(turns).value| == 1 {
        if Running(first) {
          assert RunningTurns(rest).value == [];
          assert OnlyRunning(turns, 0);
        } else {
          var k :| OnlyRunning(rest, k);
          assert OnlyRunning(turns, k + 1);
        }
      }
    }
  }

  /** The reply has the target with a list of turns. */
  predicate ShowsTarget(reply: Result<Json>, target: Json) {
    && reply.Ok? && HasKey(reply.value, Word.Thread)
    && Get(reply.value.fields[Word.Thread], Word.Id) == target
    && HasKey(reply.value.fields[Word.Thread], Word.Turns) && reply.value.fields[Word.Thread].fields[Word.Turns].Arr?
  }

  function TargetTurns(reply: Result<Json>, target: Json): seq<Json>
    requires ShowsTarget(reply, target)
  {
    reply.value.fields[Word.Thread].fields[Word.Turns].items
  }

  lemma ReadTargetIs(reply: Result<Json>, target: Json)
    ensures ReadTarget(reply, target) == Ok([]) <==> ShowsTarget(reply, target) && NoneRunning(TargetTurns(reply, target))
    ensures ReadTarget(reply, target).Ok? && |ReadTarget(reply, target).value| == 1 <==>
              ShowsTarget(reply, target) && exists k :: OnlyRunning(TargetTurns(reply, target), k)
    ensures ShowsTarget(reply, target) ==>
              forall k | OnlyRunning(TargetTurns(reply, target), k) :: ReadTarget(reply, target) == Ok([TargetTurns(reply, target)[k]])
  {
    if ShowsTarget(reply, target) {
      RunningTurnsIs(TargetTurns(reply, target));
    }
  }

  // ------------------------------------------------------------------ settlement

  /** The goal of the target, paused if it is ours and active; a foreign goal raises. */
  function PauseOwned(srv: Server, trace: seq<Event>, h: Handoff): Step<Json> {
    var trace1 := Asked(srv, trace, GoalGet(h.target));
    match GoalIn(srv(trace, GoalGet(h.target)))
    case Err(e) => Step(trace1, Err(e))
    case Ok(goal) =>
      if Truthy(goal) && !OwnedGoal(goal, h) then Step(trace1, Err(Refused))
      else if !Truthy(goal) then Step(trace1, Ok(goal))
      else match Index(goal, Word.Status)
        case Err(e) => Step(trace1, Err(e))
        case Ok(status) =>
          if status != Str(Word.Active) then Step(trace1, Ok(goal)) else
          var pause := GoalPause(h.target, true);
          var trace2 := Asked(srv, trace1, pause);
          match GoalIn(srv(trace1, pause))
          case Err(e) => Step(trace2, Err(e))
          case Ok(paused) =>
            Step(trace2, if Index(paused, Word.Status) == Ok(Str(Word.Paused)) then Ok(paused) else Err(Refused))
  }

  /** The one running turn, interrupted if it is ours; `owned` says that the goal is. */
  function StopOwned(srv: Server, trace: seq<Event>, h: Handoff, owned: bool): Step<seq<Json>> {
    var trace1 := Asked(srv, trace, ThreadRead(h.target));
    match ReadTarget(srv(trace, ThreadRead(h.target)), h.target)
    case Err(e) => Step(trace1, Err(e))
    case Ok(running) =>
      if |running| > 1 then Step(trace1, Err(Refused))
      else if running == [] then Step(trace1, Ok([]))
      else if !owned && !OwnedTurn(running[0], h) then Step(trace1, Err(Refused))
      else match Index(running[0], Word.Id)
        case Err(e) => Step(trace1, Err(e))
        case Ok(id) =>
          var call := TurnInterrupt(h.target, id);
          Step(Asked(srv, trace1, call), match srv(trace1, call) case Ok(_) => Ok([id]) case Err(e) => Err(e))
  }

  function Settlement(srv: Server, trace: seq<Event>, h: Handoff): Step<Settled> {
    var paused := PauseOwned(srv, trace, h);
    match paused.value
    case Err(e) => Step(paused.trace, Err(e))
    case Ok(goal) =>
      var stopped := StopOwned(srv, paused.trace, h, Truthy(GoalIn(srv(trace, GoalGet(h.target))).value));
      match stopped.value
      case Err(e) => Step(stopped.trace, Err(e))
      case Ok(ids) =>
        var final := ThreadRead(h.target);
        Step(Asked(srv, stopped.trace, final),
             match NoneLeft(srv(stopped.trace, final)) case Ok(_) => Ok(Settled(goal, ids)) case Err(e) => Err(e))
  }

  method PauseOwnedGoal(w: World, h: Handoff) returns (r: Result<Json>, owned: bool)
    requires w.Valid()
    modifies w
    ensures w.Valid()
    ensures Step(w.trace, r) == PauseOwned(w.server, old(w.trace), h)
    ensures r.Ok? ==> owned == Truthy(GoalIn(w.server(old(w.trace), GoalGet(h.target))).value)
  {
    owned := false;
    var reply := w.Ask(GoalGet(h.target));
    var goal :- GoalIn(reply);
    owned := OwnedGoal(goal, h);
    :- Require(!Truthy(goal) || owned);
    if owned {
      var status :- Index(goal, Word.Status);
      if status == Str(Word.Active) {
        reply := w.Ask(GoalPause(h.target, true));
        goal :- GoalIn(reply);
        :- Require(Index(goal, Word.Status) == Ok(Str(Word.Paused)));
      }
    }
    r := Ok(goal);
  }

  method StopOwnedTurns(w: World, h: Handoff, owned: bool) returns (r: Result<seq<Json>>)
    requires w.Valid()
    modifies w
    ensures w.Valid()
    ensures Step(w.trace, r) == StopOwned(w.server, old(w.trace), h, owned)
  {
    var reply := w.Ask(ThreadRead(h.target));
    ghost var read := w.trace;
    var running :- ReadTarget(reply, h.target);
    :- Require(|running| <= 1);
    var interrupted := [];
    for i := 0 to |running|
      invariant w.Valid()
      invariant if i == 0 then w.trace == read && interrupted == []
                else Step(w.trace, Ok(interrupted)) == StopOwned(w.server, old(w.trace), h, owned)
    {
      :- Require(owned || OwnedTurn(running[i], h));
      var id :- Index(running[i], Word.Id);
      reply := w.Ask(TurnInterrupt(h.target, id));
      var _ :- reply;
      assert interrupted + [id] == [id];
      interrupted := interrupted + [id];
    }
    r := Ok(interrupted);
  }

  /** `settle_owned_successor` */
  method SettleOwnedSuccessor(w: World, h: Handoff) returns (r: Result<Settled>)
    requires w.Valid()
    modifies w
    ensures w.Valid()
    ensures Step(w.trace, r) == Settlement(w.server, old(w.trace), h)
  {
    var paused, owned := PauseOwnedGoal(w, h);
    var goal :- paused;
    var stopped := StopOwnedTurns(w, h, owned);
    var interrupted :- stopped;
    var reply := w.Ask(ThreadRead(h.target));
    var _ :- NoneLeft(reply);
    r := Ok(Settled(goal, interrupted));
  }

  // ---------------------------------------------------- owners are read before effects

  /** `k` is a pause, right after the goal was read as the one handed off, and active. */
  ghost predicate PausesOwned(events: seq<Event>, k: nat, h: Handoff) {
    && k < |events| && events[k].call == GoalPause(h.target, true)
    && k > 0 && events[k - 1].call == GoalGet(h.target) && ShowsOwned(events[k - 1].reply, h)
    && Has(events[k - 1].reply.value.fields[Word.Goal], Word.Status, Str(Word.Active))
  }

  /** The reply has the goal that was handed off. */
  ghost predicate ShowsOwned(reply: Result<Json>, h: Handoff) {
    reply.Ok? && HasKey(reply.value, Word.Goal) && HandedOff(reply.value.fields[Word.Goal], h)
  }

  /** In the reply this is the only turn in progress, and it is ours. */
  ghost predicate ShowsOurTurn(reply: Result<Json>, id: Json, h: Handoff, owned: bool) {
    && ShowsTarget(reply, h.target)
    && var turns := TargetTurns(reply, h.target);
    exists k :: OnlyRunning(turns, k) && Has(turns[k], Word.Id, id) && (owned || CarriesSubmission(turns[k], h))
  }

  /** `k` interrupts the only running turn, right after it was read; the goal was read as
      the one handed off, or the turn carries the submission. */
  ghost predicate InterruptsOwned(events: seq<Event>, k: nat, h: Handoff) {
    && k < |events| && events[k].call.TurnInterrupt? && events[k].call.thread == h.target
    && k > 0 && events[k - 1].call == ThreadRead(h.target)
    && ShowsOurTurn(events[k - 1].reply, events[k].call.turn, h, ShowsOwned(events[0].reply, h))
  }

  predicate ReadsTarget(call: Call, h: Handoff) {
    call == GoalGet(h.target) || call == ThreadRead(h.target)
  }

  /** The goal is there, and is not the one handed off. */
  ghost predicate Foreign(reply: Result<Json>, h: Handoff) {
    && reply.Ok? && HasKey(reply.value, Word.Goal) && Truthy(reply.value.fields[Word.Goal])
    && !HandedOff(reply.value.fields[Word.Goal], h)
  }

  ghost predicate PauseEvents(events: seq<Event>, h: Handoff) {
    && 1 <= |events| <= 2 && events[0].call == GoalGet(h.target)
    && (|events| == 2 ==> PausesOwned(events, 1, h))
  }

  lemma PausedEvents(srv: Server, trace: seq<Event>, h: Handoff) returns (events: seq<Event>)
    ensures var step := PauseOwned(srv, trace, h);
      && step.trace == trace + events
      && PauseEvents(events, h) && events[0].reply == srv(trace, GoalGet(h.target))
      && (step.value.Ok? ==> GoalIn(events[0].reply).Ok? && !Foreign(events[0].reply, h))
      && (Foreign(events[0].reply, h) ==> |events| == 1 && step.value.Err?)
  {
    var step := PauseOwned(srv, trace, h);
    events := step.trace[|trace|..];
    OwnedGoalIs(GoalIn(srv(trace, GoalGet(h.target))).GetOr(Null), h);
  }

  /** The read of the turns, and the interrupt of the one that runs if it is ours. */
  ghost predicate StopEvents(events: seq<Event>, h: Handoff, owned: bool) {
    && 1 <= |events| <= 2 && events[0].call == ThreadRead(h.target)
    && (|events| == 2 ==>
          && events[1].call.TurnInterrupt? && events[1].call.thread == h.target
          && ShowsOurTurn(events[0].reply, events[1].call.turn, h, owned))
  }

  lemma StoppedEvents(srv: Server, trace: seq<Event>, h: Handoff, owned: bool) returns (events: seq<Event>)
    ensures StopOwned(srv, trace, h, owned).trace == trace + events && StopEvents(events, h, owned)
  {
    var step := StopOwned(srv, trace, h, owned);
    events := step.trace[|trace|..];
    var reply := srv(trace, ThreadRead(h.target));
    ReadTargetIs(reply, h.target);
    if ReadTarget(reply, h.target).Ok? && |ReadTarget(reply, h.target).value| == 1 {
      var k :| OnlyRunning(TargetTurns(reply, h.target), k);
      OwnedTurnIs(TargetTurns(reply, h.target)[k], h);
    }
  }

  /** Whatever the server answers: every call is about the target; every call that is not
      a read pauses or interrupts what was just read to be ours; at most one turn is
      interrupted; and a goal that is not ours ends it all after the first read. */
  ghost predicate TouchesOnlyOwned(events: seq<Event>, h: Handoff) {
    && 1 <= |events| <= 5
    && (forall k | 0 <= k < |events| ::
          ReadsTarget(events[k].call, h) || PausesOwned(events, k, h) || InterruptsOwned(events, k, h))
    && (forall j, k | 0 <= j < k < |events| :: !events[j].call.TurnInterrupt? || !events[k].call.TurnInterrupt?)
    && events[0].call == GoalGet(h.target)
    && (Foreign(events[0].reply, h) ==> |events| == 1)
  }

  lemma StopTogether(events: seq<Event>, pause: seq<Event>, stop: seq<Event>, rest: seq<Event>, h: Handoff)
    requires events == pause + stop + rest && PauseEvents(pause, h) && |stop| == 2
    requires StopEvents(stop, h, ShowsOwned(pause[0].reply, h))
    ensures InterruptsOwned(events, |pause| + 1, h)
  {
    assert events[0] == pause[0] && events[|pause|] == stop[0] && events[|pause| + 1] == stop[1];
  }

  lemma OwnedTogether(pause: seq<Event>, stop: seq<Event>, rest: seq<Event>, h: Handoff)
    requires PauseEvents(pause, h) && GoalIn(pause[0].reply).Ok? && !Foreign(pause[0].reply, h)
    requires StopEvents(stop, h, Truthy(GoalIn(pause[0].reply).value))
    requires |rest| <= 1 && (|rest| == 1 ==> rest[0].call == ThreadRead(h.target))
    ensures TouchesOnlyOwned(pause + stop + rest, h)
  {
    var events := pause + stop + rest;
    assert events[..|pause|] == pause && events[|pause|] == stop[0];
    OwnedShown(pause[0].reply, h);
    if |pause| == 2 {
      assert PausesOwned(events, 1, h);
    }
    if |stop| == 2 {
      assert events[|pause| + 1] == stop[1];
      StopTogether(events, pause, stop, rest, h);
    }
    forall k | 0 <= k < |events|
      ensures ReadsTarget(events[k].call, h) || PausesOwned(events, k, h) || InterruptsOwned(events, k, h)
    {
    }
  }

  lemma OwnedShown(reply: Result<Json>, h: Handoff)
    requires GoalIn(reply).Ok? && !Foreign(reply, h)
    ensures Truthy(GoalIn(reply).value) <==> ShowsOwned(reply, h)
  {
  }

  lemma PauseAlone(pause: seq<Event>, h: Handoff)
    requires PauseEvents(pause, h) && (Foreign(pause[0].reply, h) ==> |pause| == 1)
    ensures TouchesOnlyOwned(pause, h)
  {
  }

  lemma Regroup(a: seq<Event>, b: seq<Event>, c: seq<Event>, d: seq<Event>)
    ensures a + b + c + d == a + (b + c + d)
  {
  }

  lemma EffectsAreOwned(srv: Server, trace: seq<Event>, h: Handoff) returns (events: seq<Event>)
    ensures Settlement(srv, trace, h).trace == trace + events && TouchesOnlyOwned(events, h)
    ensures Foreign(events[0].reply, h) ==> Settlement(srv, trace, h).value.Err?
  {
    var paused := PauseOwned(srv, trace, h);
    var pause := PausedEvents(srv, trace, h);
    if paused.value.Err? {
      events := pause;
      PauseAlone(pause, h);
    } else {
      var owned := Truthy(GoalIn(pause[0].reply).value);
      var stopped := StopOwned(srv, paused.trace, h, owned);
      var stop := StoppedEvents(srv, paused.trace, h, owned);
      var rest := if stopped.value.Ok? then [Did(ThreadRead(h.target), srv(stopped.trace, ThreadRead(h.target)))] else [];
      OwnedTogether(pause, stop, rest, h);
      events := pause + stop + rest;
      Regroup(trace, pause, stop, rest);
      assert Settlement(srv, trace, h).trace == stopped.trace + rest;
    }
  }

  // ----------------------------------------------------------- against a true server

  /** The thread on the server. */
  datatype Thread = Thread(goal: Json, turns: seq<Json>)

  function ThreadReply(target: Json, v: Thread): Json {
    Obj(map[Word.Thread := Obj(map[Word.Id := target, Word.Turns := Arr(v.turns)])])
  }

  function GoalReply(v: Thread): Json {
    Obj(map[Word.Goal := v.goal])
  }

  /** Answered reads and pauses tell the truth; reading changes nothing, a pause no more
      than the goal's status, an interrupt no more than the turns. */
  ghost predicate Truthful(srv: Server, view: seq<Event> -> Thread, target: Json) {
    && TellsTruth(srv, view, target) && ReadsKeep(srv, view, target)
    && PausesKeep(srv, view, target) && InterruptsKeep(srv, view, target)
  }

  ghost predicate TellsTruth(srv: Server, view: seq<Event> -> Thread, target: Json) {
    && (forall tr {:trigger srv(tr, GoalGet(target))} :: srv(tr, GoalGet(target)).Ok? ==>
          srv(tr, GoalGet(target)) == Ok(GoalReply(view(tr))))
    && (forall tr {:trigger srv(tr, ThreadRead(target))} :: srv(tr, ThreadRead(target)).Ok? ==>
          srv(tr, ThreadRead(target)) == Ok(ThreadReply(target, view(tr))))
  }

  ghost predicate ReadsKeep(srv: Server, view: seq<Event> -> Thread, target: Json) {
    && (forall tr {:trigger Asked(srv, tr, GoalGet(target))} :: view(Asked(srv, tr, GoalGet(target))) == view(tr))
    && (forall tr {:trigger Asked(srv, tr, ThreadRead(target))} :: view(Asked(srv, tr, ThreadRead(target))) == view(tr))
  }

  ghost predicate PausesKeep(srv: Server, view: seq<Event> -> Thread, target: Json) {
    forall tr :: PauseKeeps(srv, view, target, tr)
  }

  ghost predicate PauseKeeps(srv: Server, view: seq<Event> -> Thread, target: Json, trace: seq<Event>) {
    var pause := GoalPause(target, true);
    var v' := view(Asked(srv, trace, pause));
    && v' == view(trace).(goal := v'.goal) && SameGoal(v'.goal, view(trace).goal)
    && (srv(trace, pause).Ok? ==> srv(trace, pause) == Ok(GoalReply(v')))
  }

  ghost predicate InterruptsKeep(srv: Server, view: seq<Event> -> Thread, target: Json) {
    forall tr, id :: InterruptKeeps(srv, view, target, tr, id)
  }

  ghost predicate InterruptKeeps(srv: Server, view: seq<Event> -> Thread, target: Json, trace: seq<Event>, id: Json) {
    var v' := view(Asked(srv, trace, TurnInterrupt(target, id)));
    v' == view(trace).(turns := v'.turns)
  }

  /** Settled at the end: no turn in progress, the goal not active, and still the one that
      was handed off, if there was one. */
  ghost predicate Quiet(v: Thread, h: Handoff) {
    && (forall t | t in v.turns :: !Running(t))
    && (Truthy(v.goal) ==> Get(v.goal, Word.Status) != Str(Word.Active) && SameGoal(v.goal, h.goal))
  }

  lemma PausedIsQuiet(srv: Server, view: seq<Event> -> Thread, trace: seq<Event>, h: Handoff)
    requires Truthful(srv, view, h.target)
    requires PauseOwned(srv, trace, h).value.Ok?
    ensures var step := PauseOwned(srv, trace, h);
      var goal := view(step.trace).goal;
      goal == step.value.value && (Truthy(goal) ==> Get(goal, Word.Status) != Str(Word.Active) && SameGoal(goal, h.goal))
  {
    assert srv(trace, GoalGet(h.target)) == Ok(GoalReply(view(trace)));
    var trace1 := Asked(srv, trace, GoalGet(h.target));
    assert view(trace1) == view(trace);
    var pause := GoalPause(h.target, true);
    assert PauseKeeps(srv, view, h.target, trace1);
  }

  lemma StoppedKeepsGoal(srv: Server, view: seq<Event> -> Thread, trace: seq<Event>, h: Handoff, owned: bool)
    requires Truthful(srv, view, h.target)
    ensures view(StopOwned(srv, trace, h, owned).trace).goal == view(trace).goal
  {
    var trace1 := Asked(srv, trace, ThreadRead(h.target));
    assert view(trace1) == view(trace);
    var running := ReadTarget(srv(trace, ThreadRead(h.target)), h.target);
    if running.Ok? && |running.value| == 1 {
      var id := Get(running.value[0], Word.Id);
      assert InterruptKeeps(srv, view, h.target, trace1, id);
    }
  }

  /** Normal return means that the thread is quiet, and that the goal reported is its goal. */
  lemma SettledIsQuiet(srv: Server, view: seq<Event> -> Thread, trace: seq<Event>, h: Handoff)
    requires Truthful(srv, view, h.target)
    requires Settlement(srv, trace, h).value.Ok?
    ensures var step := Settlement(srv, trace, h);
      Quiet(view(step.trace), h) && view(step.trace).goal == step.value.value.goal
  {
    var paused := PauseOwned(srv, trace, h);
    PausedIsQuiet(srv, view, trace, h);
    var owned := Truthy(GoalIn(srv(trace, GoalGet(h.target))).value);
    var stopped := StopOwned(srv, paused.trace, h, owned);
    StoppedKeepsGoal(srv, view, paused.trace, h, owned);
    var final := ThreadRead(h.target);
    assert srv(stopped.trace, final) == Ok(ThreadReply(h.target, view(stopped.trace)));
    assert view(Asked(srv, stopped.trace, final)) == view(stopped.trace);
    NoneLeftMeansNone(h.target, view(stopped.trace));
  }

  lemma NoneLeftMeansNone(target: Json, v: Thread)
    requires NoneLeft(Ok(ThreadReply(target, v))).Ok?
    ensures forall t | t in v.turns :: !Running(t)
  {
    var running := RunningTurns(v.turns);
    assert running == Ok([]);
    assert forall t :: t in running.value <==> t in v.turns && Running(t);
  }

  // ------------------------------------------------------------ the original caller

  /** The goal is the saved one of the source, and paused. */
  predicate PausedSource(goal: Json, source: Json, saved: Json) {
    && goal.Obj? && saved.Obj? && Truthy(goal)
    && Get(goal, Word.Status) == Str(Word.Paused) && Get(goal, Word.ThreadId) == source
    && SameGoal(goal, saved)
  }

  /** The resumed thread is the source, with no turn in progress. */
  predicate IdleSource(reply: Result<Json>, source: Json) {
    ReadTarget(reply, source) == Ok([])
  }

  /** The reply has the saved goal of the source, and it is paused. */
  ghost predicate ShowsPausedSource(reply: Result<Json>, source: Json, saved: Json) {
    && reply.Ok? && HasKey(reply.value, Word.Goal)
    && var goal := reply.value.fields[Word.Goal];
    && Has(goal, Word.Status, Str(Word.Paused)) && Get(goal, Word.ThreadId) == source && saved.Obj?
    && forall key | key in {Word.ThreadId, Word.Objective, Word.TokenBudget, Word.CreatedAt} :: Get(goal, key) == Get(saved, key)
  }

  /** The reply has the source, with no turn in progress. */
  ghost predicate ShowsIdleSource(reply: Result<Json>, source: Json) {
    ShowsTarget(reply, source) && NoneRunning(TargetTurns(reply, source))
  }

  /** The three readings before the tool call: paused, idle, and still the same goal. */
  ghost predicate SourceQualified(events: seq<Event>, source: Json, saved: Json) {
    && |events| == 3
    && ShowsPausedSource(events[0].reply, source, saved)
    && ShowsIdleSource(events[1].reply, source)
    && events[2].reply.Ok? && Has(events[2].reply.value, Word.Goal, events[0].reply.value.fields[Word.Goal])
  }

  ghost predicate QualifiesSource(events: seq<Event>, source: Json) {
    && |events| <= 3
    && (|events| > 0 ==> events[0].call == GoalGet(source))
    && (|events| > 1 ==> events[1].call == ThreadResume(source))
    && (|events| > 2 ==> events[2].call == GoalGet(source))
  }

  /** The reading at which it stopped: the last one was refused, those before were not. */
  ghost predicate SourceStuck(events: seq<Event>, source: Json, saved: Json) {
    && 1 <= |events| <= 3
    && var paused := ShowsPausedSource(events[0].reply, source, saved);
    && if |events| == 1 then !paused
       else if |events| == 2 then paused && !ShowsIdleSource(events[1].reply, source)
       else paused && ShowsIdleSource(events[1].reply, source) && !SourceQualified(events, source, saved)
  }

  lemma PausedSourceIs(reply: Result<Json>, source: Json, saved: Json)
    ensures GoalIn(reply).Ok? && PausedSource(GoalIn(reply).value, source, saved) <==> ShowsPausedSource(reply, source, saved)
  {
  }

  method QualifySource(w: World, source: Json, saved: Json) returns (r: Result<()>, ghost events: seq<Event>)
    requires w.Valid()
    modifies w
    ensures w.Valid()
    ensures w.trace == old(w.trace) + events && QualifiesSource(events, source)
    ensures r.Ok? ==> SourceQualified(events, source, saved)
    ensures r.Err? ==> SourceStuck(events, source, saved)
  {
    var reply := w.Ask(GoalGet(source));
    events := [Did(GoalGet(source), reply)];
    PausedSourceIs(reply, source, saved);
    var before :- GoalIn(reply);
    :- Require(PausedSource(before, source, saved));
    reply := w.Ask(ThreadResume(source));
    events := events + [Did(ThreadResume(source), reply)];
    ReadTargetIs(reply, source);
    :- Require(IdleSource(reply, source));
    reply := w.Ask(GoalGet(source));
    events := events + [Did(GoalGet(source), reply)];
    var after :- GoalIn(reply);
    :- Require(after == before);
    r := Ok(());
  }

  /** `call_source_mcp`: the tool is called exactly when the source has qualified, and
      otherwise nothing follows the reading that was refused. */
  method CallSourceTool(w: World, source: Json, saved: Json, tool: string)
    returns (r: Result<Json>, ghost events: seq<Event>, ghost called: seq<Event>)
    requires w.Valid()
    modifies w
    ensures w.Valid()
    ensures w.trace == old(w.trace) + events + called && QualifiesSource(events, source)
    ensures if SourceQualified(events, source, saved) then called == [Did(ToolCall(source, tool), r)]
            else called == [] && r.Err? && SourceStuck(events, source, saved)
  {
    called := [];
    var qualified;
    qualified, events := QualifySource(w, source, saved);
    var _ :- qualified;
    r := w.Ask(ToolCall(source, tool));
    called := [Did(ToolCall(source, tool), r)];
  }
}
