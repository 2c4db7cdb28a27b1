/** A server that keeps one thread and does what it is told. It shows that the conditions
    under which cleanup is complete can be met, from every state of the thread. */
module CooperativeServer {
  import Word
  import opened Values
  import opened Native
  import opened Cleanup
  import opened CleanupProperties

  function Interrupted(turn: Json, id: Json): Json {
    if turn.Obj? && Get(turn, Word.Id) == id then Obj(turn.fields[Word.Status := Str(Word.Interrupted)]) else turn
  }

  function InterruptedRow(turns: seq<Json>, id: Json): (r: seq<Json>)
    ensures |r| == |turns| && forall i | 0 <= i < |turns| :: r[i] == Interrupted(turns[i], id)
  {
    seq(|turns|, i requires 0 <= i < |turns| => Interrupted(turns[i], id))
  }

  function InterruptedPages(pages: seq<seq<Json>>, id: Json): (r: seq<seq<Json>>)
    ensures |r| == |pages| && forall k | 0 <= k < |pages| :: r[k] == InterruptedRow(pages[k], id)
  {
    seq(|pages|, k requires 0 <= k < |pages| => InterruptedRow(pages[k], id))
  }

  /** What a call does to the thread. */
  function Step(v: View, thread: Json, call: Call): View {
    match call
    case GoalPause(t, _) => if t == thread then v.(goal := Obj(map[Word.Status := Str(Word.Paused)])) else v
    case TurnInterrupt(t, id) => if t == thread then v.(pages := InterruptedPages(v.pages, id)) else v
    case TerminalTerminate(t, process) =>
      if t != thread then v
      else
        var left := Without(v.terminals, Str(process));
        v.(terminals := left, shown := |left|)
    case _ => v
  }

  /** The thread after a history that began with `start`. */
  function After(start: View, thread: Json, trace: seq<Event>): View {
    if trace == [] then start else Step(After(start, thread, trace[..|trace| - 1]), thread, trace[|trace| - 1].call)
  }

  /** The page that a cursor leads to. */
  function PageIndex(cursors: seq<Word.Token>, cursor: Option<Json>): (k: nat)
    ensures k <= |cursors| + 1
  {
    if cursor.None? then 0
    else if cursors == [] then 1
    else if Str(cursors[0]) == cursor.value then 1
    else 1 + PageIndex(cursors[1..], cursor)
  }

  function Answer(v: View, thread: Json, call: Call): Result<Json> {
    match call
    case TurnsList(_, cursor) =>
      var k := PageIndex(v.cursors, cursor);
      if k < |v.pages| == |v.cursors| + 1 then Ok(PageReply(v, k)) else Ok(Null)
    case TerminalsList(_) => if v.shown <= |v.terminals| then Ok(TerminalsReply(v)) else Ok(Null)
    case GoalGet(_) => Ok(Obj(map[Word.Goal := v.goal]))
    case _ => Ok(Null)
  }

  function Views(start: View, thread: Json): seq<Event> -> View {
    trace => After(start, thread, trace)
  }

  function Serves(start: View, thread: Json): Server {
    (trace, call) => Answer(After(start, thread, trace), thread, call)
  }

  lemma StepKeepsForm(v: View, thread: Json, call: Call)
    requires WellFormed(v)
    ensures WellFormed(Step(v, thread, call)) && Step(v, thread, call).cursors == v.cursors
  {
  }

  lemma {:induction false} AfterIsWellFormed(start: View, thread: Json, trace: seq<Event>)
    requires WellFormed(start)
    ensures WellFormed(After(start, thread, trace))
  {
    if trace != [] {
      AfterIsWellFormed(start, thread, trace[..|trace| - 1]);
      StepKeepsForm(After(start, thread, trace[..|trace| - 1]), thread, trace[|trace| - 1].call);
    }
  }

  lemma AfterAsked(start: View, thread: Json, trace: seq<Event>, call: Call)
    ensures After(start, thread, Asked(Serves(start, thread), trace, call)) == Step(After(start, thread, trace), thread, call)
  {
    var trace' := Asked(Serves(start, thread), trace, call);
    assert trace'[..|trace|] == trace && trace'[|trace|].call == call;
  }

  lemma {:induction false} CursorFound(cursors: seq<Word.Token>, k: nat)
    requires k < |cursors| && forall i, j | 0 <= i < j < |cursors| :: cursors[i] != cursors[j]
    ensures PageIndex(cursors, Some(Str(cursors[k]))) == k + 1
  {
    if k > 0 {
      CursorFound(cursors[1..], k - 1);
    }
  }

  lemma PageServed(v: View, thread: Json, k: nat)
    requires WellFormed(v) && k < |v.pages|
    ensures Answer(v, thread, TurnsList(thread, CursorAt(v, k))) == Ok(PageReply(v, k))
  {
    if k > 0 {
      CursorFound(v.cursors, k - 1);
    }
  }

  lemma PagesAreHonest(start: View, thread: Json)
    requires WellFormed(start)
    ensures HonestPages(Serves(start, thread), Views(start, thread), thread)
  {
    var srv, view := Serves(start, thread), Views(start, thread);
    forall tr ensures WellFormed(view(tr)) {
      AfterIsWellFormed(start, thread, tr);
    }
    forall tr, k: nat | k < |view(tr).pages| ensures ServesPage(srv, view(tr), thread, tr, k) {
      PageServed(view(tr), thread, k);
    }
    ReadsKeepView(start, thread);
  }

  lemma ReadKeepsView(start: View, thread: Json, trace: seq<Event>, call: Call)
    requires Reads(call)
    ensures After(start, thread, Asked(Serves(start, thread), trace, call)) == After(start, thread, trace)
  {
    AfterAsked(start, thread, trace, call);
  }

  lemma ReadsKeepView(start: View, thread: Json)
    ensures ReadsChangeNothing(Serves(start, thread), Views(start, thread))
  {
    var srv, view := Serves(start, thread), Views(start, thread);
    forall tr, call {:trigger Asked(srv, tr, call)} | Reads(call) ensures view(Asked(srv, tr, call)) == view(tr) {
      ReadKeepsView(start, thread, tr, call);
    }
  }

  lemma TerminalsAreHonest(start: View, thread: Json)
    ensures HonestTerminals(Serves(start, thread), Views(start, thread), thread)
  {
  }

  lemma GoalIsHonest(start: View, thread: Json)
    ensures HonestGoal(Serves(start, thread), Views(start, thread), thread)
  {
  }

  lemma IsHonest(start: View, thread: Json)
    requires WellFormed(start)
    ensures Honest(Serves(start, thread), Views(start, thread), thread)
  {
    PagesAreHonest(start, thread);
    TerminalsAreHonest(start, thread);
    GoalIsHonest(start, thread);
  }

  lemma InterruptStops(v: View, thread: Json, id: Json)
    ensures Stops(v, id, Step(v, thread, TurnInterrupt(thread, id)))
  {
    var v' := Step(v, thread, TurnInterrupt(thread, id));
    forall k, i | 0 <= k < |v.pages| && 0 <= i < |v.pages[k]| ensures StopsTurn(v.pages[k][i], id, v'.pages[k][i]) {
      assert v'.pages[k][i] == Interrupted(v.pages[k][i], id);
    }
  }

  lemma IsObedient(start: View, thread: Json)
    ensures Obedient(Serves(start, thread), Views(start, thread), thread)
  {
    var srv, view := Serves(start, thread), Views(start, thread);
    var pause := GoalPause(thread, false);
    forall tr ensures srv(tr, pause).Ok? && Pauses(view(tr), view(Asked(srv, tr, pause))) {
      AfterAsked(start, thread, tr, pause);
    }
    forall tr, id ensures srv(tr, TurnInterrupt(thread, id)).Ok? && Stops(view(tr), id, view(Asked(srv, tr, TurnInterrupt(thread, id)))) {
      AfterAsked(start, thread, tr, TurnInterrupt(thread, id));
      InterruptStops(view(tr), thread, id);
    }
    forall tr, p ensures srv(tr, TerminalTerminate(thread, p)).Ok? && Ends(view(tr), Str(p), view(Asked(srv, tr, TerminalTerminate(thread, p)))) {
      AfterAsked(start, thread, tr, TerminalTerminate(thread, p));
    }
  }

  /** From every cleanable state of the thread, cleanup against this server is verified,
      interrupts exactly the running turns, ends exactly the listed processes and leaves the
      thread settled. */
  lemma CleanupSucceeds(start: View, thread: Json)
    requires WellFormed(start) && Cleanable(start)
    ensures var (trace, proof) := Cleaned(Serves(start, thread), [], thread);
      && proof.Verified()
      && proof.interrupted == RunningIds(Flat(start.pages))
      && AsJson(proof.terminated) == ProcessIds(start.terminals)
      && Settled(After(start, thread, trace))
  {
    IsHonest(start, thread);
    IsObedient(start, thread);
    CooperativeIsVerified(Serves(start, thread), Views(start, thread), thread, []);
  }
}
