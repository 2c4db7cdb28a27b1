/** A server that keeps the successor's thread and does what it is told. It shows that the
    conditions under which the settlement succeeds can be met, from every state of the thread
    that can be settled. */
module SettlingServer {
  import Word
  import opened Values
  import opened Native
  import opened Settlement
  import opened SettlementSucceeds

  function PausedGoal(goal: Json): Json {
    if goal.Obj? then Obj(goal.fields[Word.Status := Str(Word.Paused)]) else Obj(map[Word.Status := Str(Word.Paused)])
  }

  function Interrupted(turn: Json, id: Json): Json {
    if Has(turn, Word.Id, id) then Obj(turn.fields[Word.Status := Str(Word.Interrupted)]) else turn
  }

  function InterruptedAll(turns: seq<Json>, id: Json): (r: seq<Json>)
    ensures |r| == |turns| && forall i | 0 <= i < |turns| :: r[i] == Interrupted(turns[i], id)
  {
    seq(|turns|, i requires 0 <= i < |turns| => Interrupted(turns[i], id))
  }

  function Step(v: Thread, target: Json, call: Call): Thread {
    match call
    case GoalPause(t, _) => if t == target then v.(goal := PausedGoal(v.goal)) else v
    case TurnInterrupt(t, id) => if t == target then v.(turns := InterruptedAll(v.turns, id)) else v
    case _ => v
  }

  /** The thread after a history that began with `start`. */
  function After(start: Thread, target: Json, trace: seq<Event>): Thread {
    if trace == [] then start else Step(After(start, target, trace[..|trace| - 1]), target, trace[|trace| - 1].call)
  }

  function Answer(v: Thread, target: Json, call: Call): Result<Json> {
    match call
    case GoalGet(_) => Ok(GoalReply(v))
    case GoalPause(_, _) => Ok(GoalReply(Step(v, target, call)))
    case ThreadRead(_) => Ok(ThreadReply(target, v))
    case _ => Ok(Null)
  }

  function Views(start: Thread, target: Json): seq<Event> -> Thread {
    trace => After(start, target, trace)
  }

  function Serves(start: Thread, target: Json): Server {
    (trace, call) => Answer(After(start, target, trace), target, call)
  }

  lemma AfterAsked(start: Thread, target: Json, trace: seq<Event>, call: Call)
    ensures After(start, target, Asked(Serves(start, target), trace, call)) == Step(After(start, target, trace), target, call)
  {
    var trace' := Asked(Serves(start, target), trace, call);
    assert trace'[..|trace|] == trace && trace'[|trace|].call == call;
  }

  lemma PauseKeepsGoal(goal: Json)
    ensures SameGoal(PausedGoal(goal), goal) && Has(PausedGoal(goal), Word.Status, Str(Word.Paused))
  {
  }

  lemma ReadsAreKept(start: Thread, target: Json)
    ensures ReadsKeep(Serves(start, target), Views(start, target), target)
  {
    var srv := Serves(start, target);
    forall tr {:trigger Asked(srv, tr, GoalGet(target))}
      ensures After(start, target, Asked(srv, tr, GoalGet(target))) == After(start, target, tr)
    {
      AfterAsked(start, target, tr, GoalGet(target));
    }
    forall tr {:trigger Asked(srv, tr, ThreadRead(target))}
      ensures After(start, target, Asked(srv, tr, ThreadRead(target))) == After(start, target, tr)
    {
      AfterAsked(start, target, tr, ThreadRead(target));
    }
  }

  lemma PauseState(start: Thread, target: Json, trace: seq<Event>)
    ensures var srv, pause := Serves(start, target), GoalPause(target, true);
      var v := After(start, target, trace);
      && After(start, target, Asked(srv, trace, pause)) == Thread(PausedGoal(v.goal), v.turns)
      && srv(trace, pause) == Ok(GoalReply(Thread(PausedGoal(v.goal), v.turns)))
  {
    AfterAsked(start, target, trace, GoalPause(target, true));
  }

  lemma PauseDoes(start: Thread, target: Json, trace: seq<Event>)
    ensures PauseKeeps(Serves(start, target), Views(start, target), target, trace)
    ensures PauseObeyed(Serves(start, target), Views(start, target), target, trace)
  {
    PauseState(start, target, trace);
    PauseKeepsGoal(After(start, target, trace).goal);
  }

  lemma InterruptDoes(start: Thread, target: Json, trace: seq<Event>, id: Json)
    ensures InterruptKeeps(Serves(start, target), Views(start, target), target, trace, id)
    ensures InterruptObeyed(Serves(start, target), Views(start, target), target, trace, id)
  {
    AfterAsked(start, target, trace, TurnInterrupt(target, id));
  }

  lemma TruthIsTold(start: Thread, target: Json)
    ensures TellsTruth(Serves(start, target), Views(start, target), target)
    ensures AnswersReads(Serves(start, target), target)
  {
  }

  lemma EffectsAreObeyed(start: Thread, target: Json)
    ensures PausesKeep(Serves(start, target), Views(start, target), target)
    ensures ObeysPause(Serves(start, target), Views(start, target), target)
    ensures InterruptsKeep(Serves(start, target), Views(start, target), target)
    ensures ObeysInterrupt(Serves(start, target), Views(start, target), target)
  {
    var srv, view := Serves(start, target), Views(start, target);
    forall tr ensures PauseKeeps(srv, view, target, tr) && PauseObeyed(srv, view, target, tr) {
      PauseDoes(start, target, tr);
    }
    forall tr, id ensures InterruptKeeps(srv, view, target, tr, id) && InterruptObeyed(srv, view, target, tr, id) {
      InterruptDoes(start, target, tr, id);
    }
  }

  /** From every state that can be settled, the settlement with this server succeeds. */
  lemma Settles(start: Thread, h: Handoff)
    requires Settleable(start, h)
    ensures Settlement.Settlement(Serves(start, h.target), [], h).value.Ok?
  {
    TruthIsTold(start, h.target);
    ReadsAreKept(start, h.target);
    EffectsAreObeyed(start, h.target);
    assert Views(start, h.target)([]) == start;
    var events := SettlementCompletes(Serves(start, h.target), Views(start, h.target), [], h);
  }
}
