/** When the settlement of an owned successor succeeds, and what it then has done; and a server
    that meets these conditions. */
module SettlementSucceeds {
  import Word
  import opened Values
  import opened Native
  import opened Settlement

  // --------------------------------------------------------------------- completeness

  /** The turns after one of them was interrupted: it is no longer in progress, and the others
      are as they were. */
  ghost predicate StopsTurn(before: seq<Json>, id: Json, after: seq<Json>) {
    && |after| == |before|
    && forall k | 0 <= k < |before| ::
         if Has(before[k], Word.Id, id) then after[k].Obj? && !Has(after[k], Word.Status, Str(Word.InProgress))
         else after[k] == before[k]
  }

  /** The server answers every call about the target, a pause pauses the goal, and an interrupt
      stops the turn that it names. */
  ghost predicate Obliging(srv: Server, view: seq<Event> -> Thread, target: Json) {
    && AnswersReads(srv, target) && ObeysPause(srv, view, target) && ObeysInterrupt(srv, view, target)
  }

  ghost predicate AnswersReads(srv: Server, target: Json) {
    && (forall tr {:trigger srv(tr, GoalGet(target))} :: srv(tr, GoalGet(target)).Ok?)
    && (forall tr {:trigger srv(tr, ThreadRead(target))} :: srv(tr, ThreadRead(target)).Ok?)
  }

  ghost predicate ObeysPause(srv: Server, view: seq<Event> -> Thread, target: Json) {
    forall tr :: PauseObeyed(srv, view, target, tr)
  }

  ghost predicate PauseObeyed(srv: Server, view: seq<Event> -> Thread, target: Json, trace: seq<Event>) {
    && srv(trace, GoalPause(target, true)).Ok?
    && Has(view(Asked(srv, trace, GoalPause(target, true))).goal, Word.Status, Str(Word.Paused))
  }

  ghost predicate ObeysInterrupt(srv: Server, view: seq<Event> -> Thread, target: Json) {
    forall tr, id :: InterruptObeyed(srv, view, target, tr, id)
  }

  ghost predicate InterruptObeyed(srv: Server, view: seq<Event> -> Thread, target: Json, trace: seq<Event>, id: Json) {
    && srv(trace, TurnInterrupt(target, id)).Ok?
    && StopsTurn(view(trace).turns, id, view(Asked(srv, trace, TurnInterrupt(target, id))).turns)
  }

  /** The goal is none, or the one that was handed off, with a status. */
  ghost predicate GoalSettleable(v: Thread, h: Handoff) {
    !Truthy(v.goal) || (HandedOff(v.goal, h) && HasKey(v.goal, Word.Status))
  }

  /** Turn `k` is the only one in progress, has an identity, and is ours: by the goal, or by
      the submission that it carries. */
  ghost predicate OurTurn(v: Thread, h: Handoff, k: int) {
    && OnlyRunning(v.turns, k) && HasKey(v.turns[k], Word.Id)
    && (Truthy(v.goal) || CarriesSubmission(v.turns[k], h))
  }

  ghost predicate Settleable(v: Thread, h: Handoff) {
    GoalSettleable(v, h) && (NoneRunning(v.turns) || exists k :: OurTurn(v, h, k))
  }

  function Calls(events: seq<Event>): (calls: seq<Call>)
    ensures |calls| == |events| && forall k | 0 <= k < |calls| :: calls[k] == events[k].call
  {
    seq(|events|, k requires 0 <= k < |events| => events[k].call)
  }

  /** The pause is sent exactly if the goal is active. */
  function PauseCalls(v: Thread, target: Json): seq<Call> {
    [GoalGet(target)] + if Has(v.goal, Word.Status, Str(Word.Active)) then [GoalPause(target, true)] else []
  }

  lemma PauseSucceeds(srv: Server, view: seq<Event> -> Thread, trace: seq<Event>, h: Handoff) returns (events: seq<Event>)
    requires Truthful(srv, view, h.target) && Obliging(srv, view, h.target) && GoalSettleable(view(trace), h)
    ensures var step := PauseOwned(srv, trace, h);
      && step.value.Ok? && step.trace == trace + events
      && Calls(events) == PauseCalls(view(trace), h.target)
      && view(step.trace).turns == view(trace).turns
      && GoalIn(srv(trace, GoalGet(h.target))) == Ok(view(trace).goal)
  {
    var v := view(trace);
    var read := Asked(srv, trace, GoalGet(h.target));
    var pause := GoalPause(h.target, true);
    OwnedGoalIs(v.goal, h);
    assert srv(trace, GoalGet(h.target)) == Ok(GoalReply(v)) && view(read) == v;
    events := [Did(GoalGet(h.target), Ok(GoalReply(v)))];
    if Has(v.goal, Word.Status, Str(Word.Active)) {
      assert PauseObeyed(srv, view, h.target, read) && PauseKeeps(srv, view, h.target, read);
      events := events + [Did(pause, srv(read, pause))];
    }
    assert Calls(events) == PauseCalls(v, h.target);
  }

  /** What is called for the turns: the read, and the interrupt of the one in progress. */
  ghost predicate StopCalls(calls: seq<Call>, ids: seq<Json>, turns: seq<Json>, target: Json) {
    if NoneRunning(turns) then calls == [ThreadRead(target)] && ids == []
    else exists k :: OnlyRunning(turns, k) && HasKey(turns[k], Word.Id) && ids == [turns[k].fields[Word.Id]]
                     && calls == [ThreadRead(target), TurnInterrupt(target, turns[k].fields[Word.Id])]
  }

  lemma StopsTheOne(before: seq<Json>, k: int, after: seq<Json>)
    requires OnlyRunning(before, k) && HasKey(before[k], Word.Id)
    requires StopsTurn(before, before[k].fields[Word.Id], after)
    ensures NoneRunning(after)
  {
  }

  lemma StopSucceeds(srv: Server, view: seq<Event> -> Thread, trace: seq<Event>, h: Handoff, owned: bool)
    returns (events: seq<Event>)
    requires Truthful(srv, view, h.target) && Obliging(srv, view, h.target)
    requires var turns := view(trace).turns;
      NoneRunning(turns) ||
      exists k :: OnlyRunning(turns, k) && HasKey(turns[k], Word.Id) && (owned || CarriesSubmission(turns[k], h))
    ensures var step := StopOwned(srv, trace, h, owned);
      && step.value.Ok? && step.trace == trace + events
      && StopCalls(Calls(events), step.value.value, view(trace).turns, h.target)
      && NoneRunning(view(step.trace).turns)
  {
    var turns := view(trace).turns;
    var read := Asked(srv, trace, ThreadRead(h.target));
    var reply := srv(trace, ThreadRead(h.target));
    assert reply == Ok(ThreadReply(h.target, view(trace))) && view(read) == view(trace);
    assert ShowsTarget(reply, h.target) && TargetTurns(reply, h.target) == turns;
    ReadTargetIs(reply, h.target);
    events := [Did(ThreadRead(h.target), reply)];
    if NoneRunning(turns) {
      assert Calls(events) == [ThreadRead(h.target)];
    } else {
      var k :| OnlyRunning(turns, k) && HasKey(turns[k], Word.Id) && (owned || CarriesSubmission(turns[k], h));
      OwnedTurnIs(turns[k], h);
      var id := turns[k].fields[Word.Id];
      var stop := TurnInterrupt(h.target, id);
      assert InterruptObeyed(srv, view, h.target, read, id) && InterruptKeeps(srv, view, h.target, read, id);
      StopsTheOne(turns, k, view(Asked(srv, read, stop)).turns);
      events := events + [Did(stop, srv(read, stop))];
      assert Calls(events) == [ThreadRead(h.target), stop];
    }
  }

  lemma NoneLeftSucceeds(target: Json, v: Thread)
    requires NoneRunning(v.turns)
    ensures NoneLeft(Ok(ThreadReply(target, v))) == Ok(())
  {
    RunningTurnsIs(v.turns);
  }

  /** The calls of the whole settlement. */
  ghost predicate SettlingCalls(events: seq<Event>, ids: seq<Json>, v: Thread, target: Json) {
    exists stop ::
      && StopCalls(stop, ids, v.turns, target)
      && Calls(events) == PauseCalls(v, target) + stop + [ThreadRead(target)]
  }

  lemma SettledTogether(pause: seq<Event>, stop: seq<Event>, final: Event, ids: seq<Json>, v: Thread, target: Json)
    requires Calls(pause) == PauseCalls(v, target) && StopCalls(Calls(stop), ids, v.turns, target)
    requires final.call == ThreadRead(target)
    ensures SettlingCalls(pause + stop + [final], ids, v, target)
  {
    assert Calls(pause + stop + [final]) == PauseCalls(v, target) + Calls(stop) + [ThreadRead(target)];
  }

  /** From every state that can be settled, with a server that obeys, the settlement returns
      normally: it pauses the goal if and only if it is active, interrupts the running turn, if
      there is one, exactly once, and leaves the thread quiet. */
  lemma SettlementCompletes(srv: Server, view: seq<Event> -> Thread, trace: seq<Event>, h: Handoff) returns (events: seq<Event>)
    requires Truthful(srv, view, h.target) && Obliging(srv, view, h.target) && Settleable(view(trace), h)
    ensures var step := Settlement.Settlement(srv, trace, h);
      && step.value.Ok? && step.trace == trace + events
      && SettlingCalls(events, step.value.value.interrupted, view(trace), h.target)
      && Quiet(view(step.trace), h)
  {
    var v := view(trace);
    var pause := PauseSucceeds(srv, view, trace, h);
    var paused := PauseOwned(srv, trace, h).trace;
    var owned := Truthy(v.goal);
    var stop := StopSucceeds(srv, view, paused, h, owned);
    var stopped := StopOwned(srv, paused, h, owned);
    var read := ThreadRead(h.target);
    assert srv(stopped.trace, read) == Ok(ThreadReply(h.target, view(stopped.trace)));
    NoneLeftSucceeds(h.target, view(stopped.trace));
    var final := Did(read, srv(stopped.trace, read));
    SettledTogether(pause, stop, final, stopped.value.value, v, h.target);
    events := pause + stop + [final];
    Settlement.Regroup(trace, pause, stop, [final]);
    SettledIsQuiet(srv, view, trace, h);
  }

  /** Whatever the server answers, the first call that fails is the last one, and raises. */
  lemma NothingAfterFailure(srv: Server, trace: seq<Event>, h: Handoff)
    ensures var step := Settlement.Settlement(srv, trace, h);
      && |trace| < |step.trace|
      && forall i | |trace| <= i < |step.trace| :: step.trace[i].reply.Err? ==> i == |step.trace| - 1 && step.value.Err?
  {
    var paused := PauseOwned(srv, trace, h);
    assert forall i | |trace| <= i < |paused.trace| :: paused.trace[i].reply.Err? ==> i == |paused.trace| - 1 && paused.value.Err?;
  }
}
