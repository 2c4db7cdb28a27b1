/** What a verified cleanup means for the thread on the server, and when it is reached. */
module CleanupProperties {
  import Word
  import opened Values
  import opened Native
  import opened Cleanup

  // ---------------------------------------------------- the thread on the server

  /** Turns are served in pages; page `k + 1` is reached by `cursors[k]`. Of the
      background terminals the first `shown` are listed. */
  datatype View = View(pages: seq<seq<Json>>, cursors: seq<Word.Token>, terminals: seq<Json>, shown: nat, goal: Json)

  ghost predicate WellFormed(v: View) {
    && v.pages != [] && |v.cursors| == |v.pages| - 1
    && (forall k | 0 <= k < |v.cursors| :: v.cursors[k] != EMPTY)
    && (forall j, k | 0 <= j < k < |v.cursors| :: v.cursors[j] != v.cursors[k])
    && v.shown <= |v.terminals|
  }

  function Flat(pages: seq<seq<Json>>): seq<Json> {
    if pages == [] then [] else pages[0] + Flat(pages[1..])
  }

  function CursorAt(v: View, k: nat): Option<Json>
    requires k <= |v.cursors|
  {
    if k == 0 then None else Some(Str(v.cursors[k - 1]))
  }

  function PageReply(v: View, k: nat): Json
    requires k < |v.pages| == |v.cursors| + 1
  {
    Obj(map[Word.Data := Arr(v.pages[k]), Word.NextCursor := if k < |v.cursors| then Str(v.cursors[k]) else Null])
  }

  function TerminalsReply(v: View): Json
    requires v.shown <= |v.terminals|
  {
    Obj(map[Word.Data := Arr(v.terminals[..v.shown]), Word.NextCursor := if v.shown < |v.terminals| then Str(Word.Other("more")) else Null])
  }

  predicate Reads(call: Call) {
    call.TurnsList? || call.TerminalsList? || call.GoalGet?
  }

  /** `view` is the state of the thread after every history. Reads that are answered
      tell it truly and leave it alone; what the other calls do is left open. */
  ghost predicate Honest(srv: Server, view: seq<Event> -> View, thread: Json) {
    HonestPages(srv, view, thread) && HonestTerminals(srv, view, thread) && HonestGoal(srv, view, thread)
  }

  ghost predicate HonestTerminals(srv: Server, view: seq<Event> -> View, thread: Json) {
    forall tr | WellFormed(view(tr)) ::
      var reply := srv(tr, TerminalsList(thread));
      reply.Ok? ==> reply == Ok(TerminalsReply(view(tr)))
  }

  ghost predicate HonestGoal(srv: Server, view: seq<Event> -> View, thread: Json) {
    forall tr :: var reply := srv(tr, GoalGet(thread)); reply.Ok? ==> reply == Ok(Obj(map[Word.Goal := view(tr).goal]))
  }

  ghost predicate HonestPages(srv: Server, view: seq<Event> -> View, thread: Json) {
    && (forall tr :: WellFormed(view(tr)))
    && (forall tr, k: nat | k < |view(tr).pages| :: ServesPage(srv, view(tr), thread, tr, k))
    && ReadsChangeNothing(srv, view)
  }

  ghost predicate ServesPage(srv: Server, v: View, thread: Json, tr: seq<Event>, k: nat)
    requires WellFormed(v) && k < |v.pages|
  {
    var reply := srv(tr, TurnsList(thread, CursorAt(v, k)));
    reply.Ok? ==> reply == Ok(PageReply(v, k))
  }

  ghost predicate ReadsChangeNothing(srv: Server, view: seq<Event> -> View) {
    forall tr, call {:trigger Asked(srv, tr, call)} | Reads(call) :: view(Asked(srv, tr, call)) == view(tr)
  }

  ghost predicate NoneRunning(v: View) {
    forall k, i | 0 <= k < |v.pages| && 0 <= i < |v.pages[k]| :: !Running(v.pages[k][i])
  }

  ghost predicate Settled(v: View) {
    NoneRunning(v) && v.terminals == [] && NotActive(v.goal)
  }

  /** There is no goal, or it has another status. */
  predicate NotActive(goal: Json) {
    !Truthy(goal) || (HasKey(goal, Word.Status) && !Has(goal, Word.Status, Str(Word.Active)))
  }

  // ------------------------------------------------------------- the paged read

  ghost function CursorsBefore(v: View, k: nat): set<Json>
    requires k <= |v.cursors|
  {
    set j | 0 <= j < k :: Str(v.cursors[j])
  }

  ghost predicate AnswersTurns(srv: Server, thread: Json) {
    forall tr, cursor :: srv(tr, TurnsList(thread, cursor)).Ok?
  }

  /** One page, if it is answered. */
  lemma HonestPage(srv: Server, view: seq<Event> -> View, thread: Json, trace: seq<Event>, k: nat)
    requires HonestPages(srv, view, thread)
    requires k < |view(trace).pages|
    ensures var v := view(trace);
      var call := TurnsList(thread, CursorAt(v, k));
      && view(Asked(srv, trace, call)) == v
      && (srv(trace, call).Ok? ==>
            PageOf(srv(trace, call)) == Ok(Page(v.pages[k], if k < |v.cursors| then Str(v.cursors[k]) else Null)))
  {
    var v := view(trace);
    var call := TurnsList(thread, CursorAt(v, k));
    assert Reads(call);
    assert ServesPage(srv, v, thread, trace, k);
  }

  lemma FlatFrom(pages: seq<seq<Json>>, k: nat)
    requires k < |pages|
    ensures Flat(pages[k..]) == pages[k] + Flat(pages[k + 1..])
  {
    assert pages[k..][1..] == pages[k + 1..];
  }

  lemma TurnsStep(srv: Server, trace: seq<Event>, thread: Json, cursor: Option<Json>, seen: set<Json>, rows: seq<Json>, left: nat, page: Page)
    requires left > 0 && PageOf(srv(trace, TurnsList(thread, cursor))) == Ok(page)
    ensures var trace' := Asked(srv, trace, TurnsList(thread, cursor));
      var step := TurnsFrom(srv, trace, thread, cursor, seen, rows, left);
      && (page.next == Null ==> step == Step(trace', Ok(rows + page.items)))
      && (NonemptyStr(page.next) && page.next !in seen ==>
            step == TurnsFrom(srv, trace', thread, Some(page.next), seen + {page.next}, rows + page.items, left - 1))
  {
  }

  lemma TurnsFail(srv: Server, trace: seq<Event>, thread: Json, cursor: Option<Json>, seen: set<Json>, rows: seq<Json>, left: nat)
    requires left > 0 && srv(trace, TurnsList(thread, cursor)).Err?
    ensures var step := TurnsFrom(srv, trace, thread, cursor, seen, rows, left);
      step.trace == Asked(srv, trace, TurnsList(thread, cursor)) && step.value.Err?
  {
  }

  lemma NextCursor(v: View, k: nat)
    requires WellFormed(v) && k < |v.cursors|
    ensures Str(v.cursors[k]) !in CursorsBefore(v, k) && CursorsBefore(v, k + 1) == CursorsBefore(v, k) + {Str(v.cursors[k])}
  {
  }

  lemma {:induction false} HonestTurnsFrom(
      srv: Server, view: seq<Event> -> View, thread: Json, trace: seq<Event>, k: nat, rows: seq<Json>, left: nat)
    requires HonestPages(srv, view, thread)
    requires k < |view(trace).pages|
    ensures var v := view(trace);
      var step := TurnsFrom(srv, trace, thread, CursorAt(v, k), CursorsBefore(v, k), rows, left);
      && view(step.trace) == v
      && (step.value.Ok? ==> step.value.value == rows + Flat(v.pages[k..]))
      && (AnswersTurns(srv, thread) && |v.pages| <= k + left ==> step.value.Ok?)
    decreases left
  {
    if left != 0 {
      var v := view(trace);
      var cursor := CursorAt(v, k);
      var trace' := Asked(srv, trace, TurnsList(thread, cursor));
      HonestPage(srv, view, thread, trace, k);
      FlatFrom(v.pages, k);
      if srv(trace, TurnsList(thread, cursor)).Err? {
        TurnsFail(srv, trace, thread, cursor, CursorsBefore(v, k), rows, left);
      } else if k < |v.cursors| {
        NextCursor(v, k);
        TurnsStep(srv, trace, thread, cursor, CursorsBefore(v, k), rows, left, Page(v.pages[k], Str(v.cursors[k])));
        HonestTurnsFrom(srv, view, thread, trace', k + 1, rows + v.pages[k], left - 1);
      } else {
        TurnsStep(srv, trace, thread, cursor, CursorsBefore(v, k), rows, left, Page(v.pages[k], Null));
        assert v.pages[k + 1..] == [];
      }
    }
  }

  lemma HonestTurns(srv: Server, view: seq<Event> -> View, thread: Json, trace: seq<Event>)
    requires Honest(srv, view, thread)
    ensures var v := view(trace);
      var step := AllTurns(srv, trace, thread);
      && view(step.trace) == v
      && (step.value.Ok? ==> step.value.value == Flat(v.pages))
      && (AnswersTurns(srv, thread) && |v.pages| <= PAGE_BOUND ==> step.value.Ok?)
  {
    var v := view(trace);
    assert CursorsBefore(v, 0) == {};
    assert v.pages[0..] == v.pages;
    HonestTurnsFrom(srv, view, thread, trace, 0, [], PAGE_BOUND);
  }

  lemma {:induction false} InFlat(pages: seq<seq<Json>>, k: nat, i: nat)
    requires k < |pages| && i < |pages[k]|
    ensures pages[k][i] in Flat(pages)
  {
    if k > 0 {
      InFlat(pages[1..], k - 1, i);
    }
  }

  lemma {:induction false} FlatIn(pages: seq<seq<Json>>, t: Json) returns (k: nat, i: nat)
    requires t in Flat(pages)
    ensures k < |pages| && i < |pages[k]| && pages[k][i] == t
  {
    if t in pages[0] {
      k := 0;
      i :| 0 <= i < |pages[0]| && pages[0][i] == t;
    } else {
      k, i := FlatIn(pages[1..], t);
      k := k + 1;
    }
  }

  /** Soundness: with a server that tells the truth, a verified cleanup leaves no turn
      in progress, no background terminal and no active goal. */
  lemma VerifiedMeansSettled(srv: Server, view: seq<Event> -> View, thread: Json, trace: seq<Event>)
    requires Honest(srv, view, thread)
    requires Cleaned(srv, trace, thread).1.Verified()
    ensures Settled(view(Cleaned(srv, trace, thread).0))
  {
    var pause := PauseGoal(srv, trace, thread);
    var turns := AllTurns(srv, pause.trace, thread);
    var stopped := InterruptAll(srv, turns.trace, thread, turns.value.value, []);
    var listed := Asked(srv, stopped.trace, TerminalsList(thread));
    var terminals := Terminals(srv(stopped.trace, TerminalsList(thread))).value;
    var ended := TerminateAll(srv, listed, thread, terminals, []);
    ReadBackMeansSettled(srv, view, thread, ended.trace);
  }

  lemma ReadBackMeansSettled(srv: Server, view: seq<Event> -> View, thread: Json, trace: seq<Event>)
    requires Honest(srv, view, thread)
    requires ReadBack(srv, trace, thread).value.Ok?
    ensures view(ReadBack(srv, trace, thread).trace) == view(trace) && Settled(view(trace))
  {
    var v := view(trace);
    var turns := AllTurns(srv, trace, thread);
    HonestTurns(srv, view, thread, trace);
    forall k, i | 0 <= k < |v.pages| && 0 <= i < |v.pages[k]| ensures !Running(v.pages[k][i]) {
      InFlat(v.pages, k, i);
    }
    var trace1 := Asked(srv, turns.trace, TerminalsList(thread));
    assert view(trace1) == v;
    assert srv(turns.trace, TerminalsList(thread)) == Ok(TerminalsReply(v));
    assert srv(trace1, GoalGet(thread)) == Ok(Obj(map[Word.Goal := v.goal]));
    assert view(Asked(srv, trace1, GoalGet(thread))) == v;
  }

  // ------------------------------------------------------------- what it may ask

  /** Cleanup reads, pauses, interrupts and terminates, on one thread only. */
  predicate CleanupCall(call: Call, thread: Json) {
    match call
    case GoalGet(t) => t == thread
    case GoalPause(t, automatic) => t == thread && !automatic
    case TurnsList(t, _) => t == thread
    case TurnInterrupt(t, _) => t == thread
    case TerminalsList(t) => t == thread
    case TerminalTerminate(t, _) => t == thread
    case _ => false
  }

  /** `after` continues `before` by calls of `CleanupCall` only. */
  ghost predicate Continues(before: seq<Event>, after: seq<Event>, thread: Json) {
    before <= after && forall i | |before| <= i < |after| :: CleanupCall(after[i].call, thread)
  }

  lemma {:induction false} TurnsContinue(
      srv: Server, trace: seq<Event>, thread: Json, cursor: Option<Json>, seen: set<Json>, rows: seq<Json>, left: nat)
    ensures Continues(trace, TurnsFrom(srv, trace, thread, cursor, seen, rows, left).trace, thread)
    decreases left
  {
    if left != 0 {
      var trace' := Asked(srv, trace, TurnsList(thread, cursor));
      var page := PageOf(srv(trace, TurnsList(thread, cursor)));
      if page.Ok? {
        TurnsContinue(srv, trace', thread, Some(page.value.next), seen + {page.value.next}, rows + page.value.items, left - 1);
      }
    }
  }

  lemma {:induction false} InterruptsContinue(srv: Server, trace: seq<Event>, thread: Json, turns: seq<Json>, done: seq<Json>)
    ensures Continues(trace, InterruptAll(srv, trace, thread, turns, done).trace, thread)
    decreases |turns|
  {
    if turns != [] {
      InterruptsContinue(srv, trace, thread, turns[1..], done);
      var id := Get(turns[0], Word.Id);
      InterruptsContinue(srv, Asked(srv, trace, TurnInterrupt(thread, id)), thread, turns[1..], done + [id]);
    }
  }

  lemma {:induction false} TerminationsContinue(srv: Server, trace: seq<Event>, thread: Json, terminals: seq<Json>, done: seq<Word.Token>)
    ensures Continues(trace, TerminateAll(srv, trace, thread, terminals, done).trace, thread)
    decreases |terminals|
  {
    if terminals != [] {
      var identity := Get(terminals[0], Word.ProcessId);
      if identity.Str? {
        var trace' := Asked(srv, trace, TerminalTerminate(thread, identity.w));
        TerminationsContinue(srv, trace', thread, terminals[1..], done + [identity.w]);
      }
    }
  }

  lemma ReadBackContinues(srv: Server, trace: seq<Event>, thread: Json)
    ensures Continues(trace, ReadBack(srv, trace, thread).trace, thread)
  {
    TurnsContinue(srv, trace, thread, None, {}, [], PAGE_BOUND);
  }

  lemma EndProcessesContinues(srv: Server, trace: seq<Event>, thread: Json, interrupted: seq<Json>)
    ensures Continues(trace, EndProcesses(srv, trace, thread, interrupted).0, thread)
  {
    var listed := Asked(srv, trace, TerminalsList(thread));
    var terminals := Terminals(srv(trace, TerminalsList(thread)));
    if terminals.Ok? {
      TerminationsContinue(srv, listed, thread, terminals.value, []);
      var ended := TerminateAll(srv, listed, thread, terminals.value, []).trace;
      ReadBackContinues(srv, ended, thread);
      ContinuesOn(listed, ended, ReadBack(srv, ended, thread).trace, thread);
    }
    ContinuesOn(trace, listed, EndProcesses(srv, trace, thread, interrupted).0, thread);
  }

  lemma StopTurnsContinues(srv: Server, trace: seq<Event>, thread: Json)
    ensures Continues(trace, StopTurns(srv, trace, thread).0, thread)
  {
    var turns := AllTurns(srv, trace, thread);
    TurnsContinue(srv, trace, thread, None, {}, [], PAGE_BOUND);
    if turns.value.Ok? {
      InterruptsContinue(srv, turns.trace, thread, turns.value.value, []);
      var stopped := InterruptAll(srv, turns.trace, thread, turns.value.value, []);
      EndProcessesContinues(srv, stopped.trace, thread, stopped.done);
      ContinuesOn(turns.trace, stopped.trace, StopTurns(srv, trace, thread).0, thread);
    }
    ContinuesOn(trace, turns.trace, StopTurns(srv, trace, thread).0, thread);
  }

  /** Whatever the server answers, cleanup touches no other thread and starts nothing. */
  lemma CleanedContinues(srv: Server, trace: seq<Event>, thread: Json)
    ensures Continues(trace, Cleaned(srv, trace, thread).0, thread)
  {
    var pause := PauseGoal(srv, trace, thread).trace;
    assert Continues(trace, pause, thread);
    StopTurnsContinues(srv, pause, thread);
    ContinuesOn(trace, pause, Cleaned(srv, trace, thread).0, thread);
  }

  lemma ContinuesOn(a: seq<Event>, b: seq<Event>, c: seq<Event>, thread: Json)
    ensures Continues(a, b, thread) && Continues(b, c, thread) ==> Continues(a, c, thread)
  {
  }

  // ------------------------------------------------------ a cooperative server

  /** Every turn has an identity and a status. */
  ghost predicate Named(v: View) {
    forall k, i | 0 <= k < |v.pages| && 0 <= i < |v.pages[k]| :: NamedTurn(v.pages[k][i])
  }

  predicate NamedTurn(turn: Json) {
    Index(turn, Word.Id).Ok? && Index(turn, Word.Status).Ok?
  }

  function RunningIds(turns: seq<Json>): seq<Json> {
    if turns == [] then []
    else (if Running(turns[0]) then [Get(turns[0], Word.Id)] else []) + RunningIds(turns[1..])
  }

  function ProcessIds(terminals: seq<Json>): seq<Json> {
    if terminals == [] then [] else [Get(terminals[0], Word.ProcessId)] + ProcessIds(terminals[1..])
  }

  function Without(terminals: seq<Json>, process: Json): seq<Json> {
    if terminals == [] then []
    else (if Get(terminals[0], Word.ProcessId) == process then [] else [terminals[0]]) + Without(terminals[1..], process)
  }

  /** `v'` is `v` with the turns called `id` no longer in progress. */
  ghost predicate Stops(v: View, id: Json, v': View) {
    && v' == v.(pages := v'.pages) && |v'.pages| == |v.pages|
    && forall k | 0 <= k < |v.pages| ::
         && |v'.pages[k]| == |v.pages[k]|
         && forall i | 0 <= i < |v.pages[k]| :: StopsTurn(v.pages[k][i], id, v'.pages[k][i])
  }

  ghost predicate StopsTurn(turn: Json, id: Json, turn': Json) {
    if Get(turn, Word.Id) == id then
      Get(turn', Word.Id) == id && !Running(turn') && (NamedTurn(turn) ==> NamedTurn(turn'))
    else turn' == turn
  }

  ghost predicate Pauses(v: View, v': View) {
    v' == v.(goal := v'.goal) && NotActive(v'.goal)
  }

  ghost predicate Ends(v: View, process: Json, v': View) {
    var left := Without(v.terminals, process);
    v' == v.(terminals := left, shown := |left|)
  }

  /** Every call is answered, and pausing, interrupting and terminating do just that. */
  ghost predicate Obedient(srv: Server, view: seq<Event> -> View, thread: Json) {
    && AnswersTurns(srv, thread)
    && (forall tr {:trigger srv(tr, TerminalsList(thread))} :: srv(tr, TerminalsList(thread)).Ok?)
    && (forall tr {:trigger srv(tr, GoalGet(thread))} :: srv(tr, GoalGet(thread)).Ok?)
    && (forall tr {:trigger srv(tr, GoalPause(thread, false))} ::
          var pause := GoalPause(thread, false);
          srv(tr, pause).Ok? && Pauses(view(tr), view(Asked(srv, tr, pause))))
    && Interruptible(srv, view, thread)
    && Terminable(srv, view, thread)
  }

  ghost predicate Interruptible(srv: Server, view: seq<Event> -> View, thread: Json) {
    forall tr, id {:trigger srv(tr, TurnInterrupt(thread, id))} ::
      var call := TurnInterrupt(thread, id);
      srv(tr, call).Ok? && Stops(view(tr), id, view(Asked(srv, tr, call)))
  }

  ghost predicate Terminable(srv: Server, view: seq<Event> -> View, thread: Json) {
    forall tr, p {:trigger srv(tr, TerminalTerminate(thread, p))} ::
      var call := TerminalTerminate(thread, p);
      srv(tr, call).Ok? && Ends(view(tr), Str(p), view(Asked(srv, tr, call)))
  }

  lemma {:induction false} InterruptsEveryRunningTurn(
      srv: Server, view: seq<Event> -> View, thread: Json, trace: seq<Event>, turns: seq<Json>, done: seq<Json>)
    requires Interruptible(srv, view, thread)
    requires Named(view(trace))
    requires forall t | t in turns :: NamedTurn(t)
    requires var v := view(trace); forall k, i | 0 <= k < |v.pages| && 0 <= i < |v.pages[k]| ::
               Running(v.pages[k][i]) ==> Get(v.pages[k][i], Word.Id) in RunningIds(turns)
    ensures var stage := InterruptAll(srv, trace, thread, turns, done);
      var v, v' := view(trace), view(stage.trace);
      && stage.check.Pass? && stage.done == done + RunningIds(turns)
      && v' == v.(pages := v'.pages) && |v'.pages| == |v.pages|
      && NoneRunning(v') && Named(v')
    decreases |turns|
  {
    if turns != [] {
      var v := view(trace);
      assert NamedTurn(turns[0]);
      if Running(turns[0]) {
        var id := Get(turns[0], Word.Id);
        var call := TurnInterrupt(thread, id);
        var trace' := Asked(srv, trace, call);
        var v' := view(trace');
        assert srv(trace, call).Ok? && Stops(v, id, v');
        forall k, i | 0 <= k < |v'.pages| && 0 <= i < |v'.pages[k]|
          ensures NamedTurn(v'.pages[k][i])
          ensures Running(v'.pages[k][i]) ==> Get(v'.pages[k][i], Word.Id) in RunningIds(turns[1..])
        {
          assert StopsTurn(v.pages[k][i], id, v'.pages[k][i]);
        }
        InterruptsEveryRunningTurn(srv, view, thread, trace', turns[1..], done + [id]);
      } else {
        InterruptsEveryRunningTurn(srv, view, thread, trace, turns[1..], done);
      }
    }
  }

  lemma EmptyOrInhabited(list: seq<Json>)
    ensures list == [] || exists t :: t in list
  {
    assert list == [] || list[0] in list;
  }

  ghost predicate Identified(terminals: seq<Json>) {
    forall t | t in terminals :: NonemptyStr(Get(t, Word.ProcessId))
  }

  lemma {:induction false} WithoutKeeps(terminals: seq<Json>, process: Json)
    ensures forall t :: t in Without(terminals, process) <==> t in terminals && Get(t, Word.ProcessId) != process
  {
    if terminals != [] {
      WithoutKeeps(terminals[1..], process);
    }
  }

  lemma ProcessEnds(srv: Server, view: seq<Event> -> View, thread: Json, trace: seq<Event>, process: Word.Token)
    requires Terminable(srv, view, thread)
    ensures var call := TerminalTerminate(thread, process);
      var v := view(trace);
      var left := Without(v.terminals, Str(process));
      srv(trace, call).Ok? && view(Asked(srv, trace, call)) == v.(terminals := left, shown := |left|)
  {
    assert srv(trace, TerminalTerminate(thread, process)).Ok?;
  }

  lemma StillListed(left: seq<Json>, terminals: seq<Json>)
    requires terminals != [] && Listed(left, terminals)
    ensures Listed(Without(left, Get(terminals[0], Word.ProcessId)), terminals[1..])
  {
    WithoutKeeps(left, Get(terminals[0], Word.ProcessId));
  }

  /** Every terminal that is left has the process of a listed one. */
  ghost predicate Listed(left: seq<Json>, terminals: seq<Json>) {
    forall t | t in left :: Get(t, Word.ProcessId) in ProcessIds(terminals)
  }

  lemma TerminateStep(srv: Server, trace: seq<Event>, thread: Json, terminals: seq<Json>, done: seq<Word.Token>)
    requires terminals != [] && NonemptyStr(Get(terminals[0], Word.ProcessId))
    requires srv(trace, TerminalTerminate(thread, Get(terminals[0], Word.ProcessId).w)).Ok?
    ensures var process := Get(terminals[0], Word.ProcessId).w;
      TerminateAll(srv, trace, thread, terminals, done)
        == TerminateAll(srv, Asked(srv, trace, TerminalTerminate(thread, process)), thread, terminals[1..], done + [process])
  {
  }

  lemma {:induction false} TerminatesEveryProcess(
      srv: Server, view: seq<Event> -> View, thread: Json, trace: seq<Event>, terminals: seq<Json>, done: seq<Word.Token>)
    requires Terminable(srv, view, thread)
    requires Identified(terminals)
    requires view(trace).shown == |view(trace).terminals|
    requires Listed(view(trace).terminals, terminals)
    ensures var stage := TerminateAll(srv, trace, thread, terminals, done);
      && stage.check.Pass?
      && AsJson(stage.done) == AsJson(done) + ProcessIds(terminals)
      && view(stage.trace) == view(trace).(terminals := [], shown := 0)
    decreases |terminals|
  {
    if terminals == [] {
      EmptyOrInhabited(view(trace).terminals);
    } else {
      assert terminals[0] in terminals;
      var process := Get(terminals[0], Word.ProcessId).w;
      ProcessEnds(srv, view, thread, trace, process);
      StillListed(view(trace).terminals, terminals);
      TerminateStep(srv, trace, thread, terminals, done);
      TerminatesEveryProcess(srv, view, thread, Asked(srv, trace, TerminalTerminate(thread, process)), terminals[1..], done + [process]);
      OneMoreProcess(done, terminals, process);
    }
  }

  function AsJson(names: seq<Word.Token>): seq<Json> {
    if names == [] then [] else AsJson(names[..|names| - 1]) + [Str(names[|names| - 1])]
  }

  lemma AsJsonAppend(names: seq<Word.Token>, name: Word.Token)
    ensures AsJson(names + [name]) == AsJson(names) + [Str(name)]
  {
    assert (names + [name])[..|names|] == names;
  }

  lemma OneMoreProcess(done: seq<Word.Token>, terminals: seq<Json>, process: Word.Token)
    requires terminals != [] && Get(terminals[0], Word.ProcessId) == Str(process)
    ensures AsJson(done + [process]) + ProcessIds(terminals[1..]) == AsJson(done) + ProcessIds(terminals)
  {
    AsJsonAppend(done, process);
  }

  lemma {:induction false} NotRunningDecided(turns: seq<Json>)
    requires forall t | t in turns :: NamedTurn(t) && !Running(t)
    ensures AnyRunning(turns) == Ok(false)
  {
    if turns != [] {
      assert turns[0] in turns;
      NotRunningDecided(turns[1..]);
    }
  }

  lemma {:induction false} RunningIdListed(turns: seq<Json>, t: Json)
    requires t in turns && Running(t)
    ensures Get(t, Word.Id) in RunningIds(turns)
  {
    if turns[0] != t {
      RunningIdListed(turns[1..], t);
    }
  }

  lemma {:induction false} ProcessIdListed(terminals: seq<Json>, t: Json)
    requires t in terminals
    ensures Get(t, Word.ProcessId) in ProcessIds(terminals)
  {
    if terminals[0] != t {
      ProcessIdListed(terminals[1..], t);
    }
  }

  /** A thread whose cleanup cannot be refused: at most 32 pages of turns, one page of
      terminals, and every turn and process can be named. */
  ghost predicate Cleanable(v: View) {
    && |v.pages| <= PAGE_BOUND
    && Named(v)
    && v.shown == |v.terminals| && Identified(v.terminals)
    && (Truthy(v.goal) ==> HasKey(v.goal, Word.Status))
  }

  lemma RunningTurnsListed(v: View)
    requires Named(v)
    ensures forall t | t in Flat(v.pages) :: NamedTurn(t)
    ensures forall k, i | 0 <= k < |v.pages| && 0 <= i < |v.pages[k]| && Running(v.pages[k][i]) ::
              Get(v.pages[k][i], Word.Id) in RunningIds(Flat(v.pages))
  {
    var rows := Flat(v.pages);
    forall t | t in rows ensures NamedTurn(t) {
      var k, i := FlatIn(v.pages, t);
    }
    forall k, i | 0 <= k < |v.pages| && 0 <= i < |v.pages[k]| && Running(v.pages[k][i])
      ensures Get(v.pages[k][i], Word.Id) in RunningIds(rows)
    {
      InFlat(v.pages, k, i);
      RunningIdListed(rows, v.pages[k][i]);
    }
  }

  lemma AllProcessesListed(v: View)
    requires v.shown == |v.terminals|
    ensures Terminals(Ok(TerminalsReply(v))) == Ok(v.terminals)
    ensures forall t | t in v.terminals :: Get(t, Word.ProcessId) in ProcessIds(v.terminals)
  {
    assert v.terminals[..v.shown] == v.terminals;
    forall t | t in v.terminals ensures Get(t, Word.ProcessId) in ProcessIds(v.terminals) {
      ProcessIdListed(v.terminals, t);
    }
  }

  /** Completeness: with a cooperative server cleanup is verified, the turns interrupted
      are exactly those first seen in progress, and the processes exactly those listed. */
  lemma CooperativeIsVerified(srv: Server, view: seq<Event> -> View, thread: Json, trace: seq<Event>)
    requires Honest(srv, view, thread) && Obedient(srv, view, thread)
    requires Cleanable(view(trace))
    ensures var (trace', proof) := Cleaned(srv, trace, thread);
      && proof.Verified()
      && proof.interrupted == RunningIds(Flat(view(trace).pages))
      && AsJson(proof.terminated) == ProcessIds(view(trace).terminals)
      && Settled(view(trace'))
  {
    var v := view(trace);
    var pause := PauseGoal(srv, trace, thread);
    PauseIsObeyed(srv, view, thread, trace);
    var v1 := view(pause.trace);
    var turns := AllTurns(srv, pause.trace, thread);
    HonestTurns(srv, view, thread, pause.trace);
    var rows := Flat(v.pages);
    assert turns.value == Ok(rows);
    RunningTurnsListed(v);
    InterruptsEveryRunningTurn(srv, view, thread, turns.trace, rows, []);
    var stopped := InterruptAll(srv, turns.trace, thread, rows, []);
    var listed := Asked(srv, stopped.trace, TerminalsList(thread));
    assert srv(stopped.trace, TerminalsList(thread)) == Ok(TerminalsReply(view(stopped.trace)));
    AllProcessesListed(view(stopped.trace));
    TerminatesEveryProcess(srv, view, thread, listed, v.terminals, []);
    var ended := TerminateAll(srv, listed, thread, v.terminals, []);
    SettledIsReadBack(srv, view, thread, ended.trace);
    VerifiedMeansSettled(srv, view, thread, trace);
  }

  lemma PauseIsObeyed(srv: Server, view: seq<Event> -> View, thread: Json, trace: seq<Event>)
    requires Honest(srv, view, thread) && Obedient(srv, view, thread)
    requires Truthy(view(trace).goal) ==> HasKey(view(trace).goal, Word.Status)
    ensures var step := PauseGoal(srv, trace, thread);
      var v' := view(step.trace);
      step.value.Ok? && v' == view(trace).(goal := v'.goal) && NotActive(v'.goal)
  {
    var trace' := Asked(srv, trace, GoalGet(thread));
    assert view(trace') == view(trace);
    assert srv(trace, GoalGet(thread)) == Ok(Obj(map[Word.Goal := view(trace).goal]));
    var pause := GoalPause(thread, false);
    assert srv(trace', pause).Ok?;
  }

  lemma SettledRows(v: View)
    requires NoneRunning(v) && Named(v)
    ensures AnyRunning(Flat(v.pages)) == Ok(false)
  {
    var rows := Flat(v.pages);
    forall t | t in rows ensures NamedTurn(t) && !Running(t) {
      var k, i := FlatIn(v.pages, t);
    }
    NotRunningDecided(rows);
  }

  lemma SettledIsReadBack(srv: Server, view: seq<Event> -> View, thread: Json, trace: seq<Event>)
    requires Honest(srv, view, thread) && Obedient(srv, view, thread)
    requires Settled(view(trace)) && Named(view(trace)) && |view(trace).pages| <= PAGE_BOUND
    ensures ReadBack(srv, trace, thread).value.Ok?
  {
    var v := view(trace);
    var turns := AllTurns(srv, trace, thread);
    HonestTurns(srv, view, thread, trace);
    SettledRows(v);
    var trace1 := Asked(srv, turns.trace, TerminalsList(thread));
    assert view(trace1) == v;
    assert srv(turns.trace, TerminalsList(thread)) == Ok(TerminalsReply(v));
    assert srv(trace1, GoalGet(thread)) == Ok(Obj(map[Word.Goal := v.goal]));
  }
}
