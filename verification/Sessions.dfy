/** The disposable session stores of scripts/controller_fork_acceptance.py and
    scripts/controller_foreach_acceptance.py: threads and turns are updated in place. */
module Sessions {
  /** The two handlers: one forks and leaves interrupts out of its log, the other defers
      interrupts and logs them. */
  datatype Kind = Forking | Foreach

  datatype TurnValue = TurnValue(id: string, status: string, text: string, interruptRequested: bool)

  datatype Effect =
    | Create(thread: string)
    | Fork(thread: string, lastTurn: string, turns: seq<TurnValue>)
    | Prompt(thread: string, text: string)
    | Interrupt(thread: string, turn: string)

  datatype Request =
    | StartThread
    | ForkThread(thread: string, lastTurn: string)
    | StartTurn(thread: string, text: string, status: string)
    | InterruptTurn(thread: string, turn: string, deferred: bool)
    | ReadThread(thread: string)

  datatype State = State(threads: map<string, seq<TurnValue>>, effects: seq<Effect>)

  function Initial(kind: Kind): State {
    match kind
    case Forking => State(map["source" := [TurnValue("completed-one", "completed", "common checkpoint", false)]], [])
    case Foreach => State(map[], [])
  }

  // -------------------------------------------------------------------- identifiers

  function Digit(n: nat): char
    requires n < 10
  {
    '0' + n as char
  }

  /** A number in decimal. */
  function Decimal(n: nat): string {
    if n < 10 then [Digit(n)] else Decimal(n / 10) + [Digit(n % 10)]
  }

  lemma DecimalParts(n: nat)
    ensures var s := Decimal(n);
      && |s| > 0 && s[|s| - 1] == Digit(n % 10)
      && s[..|s| - 1] == (if n < 10 then "" else Decimal(n / 10))
      && (n >= 10 ==> |s| > 1)
  {
    if n >= 10 {
      DecimalParts(n / 10);
    }
  }

  lemma {:induction false} DecimalIsInjective(m: nat, n: nat)
    requires Decimal(m) == Decimal(n)
    ensures m == n
    decreases m
  {
    DecimalParts(m);
    DecimalParts(n);
    assert m % 10 == n % 10;
    if m >= 10 {
      DecimalIsInjective(m / 10, n / 10);
    }
  }

  function ThreadName(kind: Kind, fork: bool, n: nat): string {
    (if fork then "fork-child-" else "fixture-thread-") + Decimal(n)
  }

  function TurnName(n: nat): string {
    "turn-" + Decimal(n)
  }

  // --------------------------------------------------------------- the specification

  function FindTurn(turns: seq<TurnValue>, id: string): (i: nat)
    ensures i <= |turns| && (i < |turns| ==> turns[i].id == id)
    ensures forall j | 0 <= j < i :: turns[j].id != id
  {
    if turns == [] || turns[0].id == id then 0 else 1 + FindTurn(turns[1..], id)
  }

  /** Whether the handler answers rather than raises. */
  predicate Accepts(kind: Kind, s: State, r: Request) {
    match r
    case StartThread => true
    case ForkThread(thread, lastTurn) =>
      kind == Forking && thread == "source" && lastTurn == "completed-one" && "source" in s.threads
    case StartTurn(thread, _, _) => thread in s.threads
    case InterruptTurn(thread, turn, _) => thread in s.threads && FindTurn(s.threads[thread], turn) < |s.threads[thread]|
    case ReadThread(thread) => thread in s.threads
  }

  function Interrupted(t: TurnValue, deferred: bool): TurnValue {
    if deferred then t.(interruptRequested := true) else t.(status := "interrupted")
  }

  function Apply(kind: Kind, s: State, r: Request): State {
    if !Accepts(kind, s, r) then s else
    match r
    case StartThread =>
      var id := ThreadName(kind, false, |s.threads|);
      State(s.threads[id := []], s.effects + [Create(id)])
    case ForkThread(_, lastTurn) =>
      var id := ThreadName(kind, true, |s.threads|);
      State(s.threads[id := s.threads["source"]], s.effects + [Fork(id, lastTurn, s.threads["source"])])
    case StartTurn(thread, text, status) =>
      var turns := s.threads[thread];
      State(s.threads[thread := turns + [TurnValue(TurnName(|turns|), status, "answer:" + text, false)]],
            s.effects + [Prompt(thread, text)])
    case InterruptTurn(thread, turn, deferred) => Stopped(kind, s, thread, turn, deferred)
    case ReadThread(_) => s
  }

  /** The first turn called `turn` interrupted. */
  function Stopped(kind: Kind, s: State, thread: string, turn: string, deferred: bool): State
    requires thread in s.threads && FindTurn(s.threads[thread], turn) < |s.threads[thread]|
  {
    var turns := s.threads[thread];
    var i := FindTurn(turns, turn);
    State(s.threads[thread := turns[i := Interrupted(turns[i], deferred && kind == Foreach)]],
          if kind == Foreach then s.effects + [Interrupt(thread, turn)] else s.effects)
  }

  function Run(kind: Kind, requests: seq<Request>): State {
    if requests == [] then Initial(kind)
    else Apply(kind, Run(kind, requests[..|requests| - 1]), requests[|requests| - 1])
  }

  // ------------------------------------------------------------------- on the heap

  /** A turn object knows the thread that holds it and its place there. */
  class Turn {
    const id: string
    const text: string
    var status: string
    var interruptRequested: bool
    ghost const owner: string
    ghost const place: nat

    constructor (v: TurnValue, ghost owner: string, ghost place: nat)
      ensures Value() == v && this.owner == owner && this.place == place
    {
      id, text := v.id, v.text;
      status, interruptRequested := v.status, v.interruptRequested;
      this.owner, this.place := owner, place;
    }

    function Value(): TurnValue
      reads this
    {
      TurnValue(id, status, text, interruptRequested)
    }
  }

  class Thread {
    const id: string
    var turns: seq<Turn>

    constructor (id: string, turns: seq<Turn>)
      ensures this.id == id && this.turns == turns
    {
      this.id, this.turns := id, turns;
    }

    /** The turn objects are this thread's own, each in its place, and read as `values`. */
    ghost predicate Holds(values: seq<TurnValue>)
      reads this, turns
    {
      && |turns| == |values|
      && forall i | 0 <= i < |turns| :: turns[i].owner == id && turns[i].place == i && turns[i].Value() == values[i]
    }
  }

  class Store {
    const kind: Kind
    var threads: map<string, Thread>
    var effects: seq<Effect>
    ghost var state: State
    ghost var Repr: set<object>

    /** Every thread is stored under its own id and owns its turns, so no turn object is
        held by two threads or held twice. `state` is what the objects say. */
    ghost predicate Valid()
      reads this, Repr
    {
      && this in Repr
      && threads.Keys == state.threads.Keys && effects == state.effects
      && (forall k | k in threads :: threads[k] in Repr && threads[k].id == k)
      && (forall k, t | k in threads && t in threads[k].turns :: t in Repr)
      && (forall k | k in threads :: threads[k].Holds(state.threads[k]))
    }

    constructor (kind: Kind)
      ensures Valid() && fresh(Repr) && this.kind == kind && state == Initial(kind)
    {
      this.kind := kind;
      threads, effects, state := map[], [], State(map[], []);
      Repr := {this};
      new;
      if kind == Forking {
        var turn := new Turn(TurnValue("completed-one", "completed", "common checkpoint", false), "source", 0);
        var thread := new Thread("source", [turn]);
        threads := map["source" := thread];
        state := Initial(kind);
        Repr := {this, thread, turn};
      }
    }

    /** New turn objects with the same contents, as a round trip through JSON makes them. */
    static method CopyTurns(turns: seq<Turn>, ghost owner: string) returns (copy: seq<Turn>)
      ensures |copy| == |turns| && forall t | t in copy :: fresh(t)
      ensures forall i | 0 <= i < |copy| ::
                copy[i].owner == owner && copy[i].place == i && copy[i].Value() == turns[i].Value()
    {
      copy := [];
      for k := 0 to |turns|
        invariant |copy| == k && forall t | t in copy :: fresh(t)
        invariant forall i | 0 <= i < k :: copy[i].owner == owner && copy[i].place == i && copy[i].Value() == turns[i].Value()
      {
        var turn := new Turn(turns[k].Value(), owner, k);
        copy := copy + [turn];
      }
    }

    /** A new thread. */
    method AddThread(id: string, turns: seq<Turn>, ghost values: seq<TurnValue>, effect: Effect)
      requires Valid()
      requires forall t | t in turns :: t !in Repr
      requires |turns| == |values|
      requires forall i | 0 <= i < |turns| :: turns[i].owner == id && turns[i].place == i && turns[i].Value() == values[i]
      modifies this
      ensures Valid() && fresh(Repr - old(Repr) - set t | t in turns)
      ensures state == State(old(state).threads[id := values], old(state).effects + [effect])
    {
      var thread := new Thread(id, turns);
      threads := threads[id := thread];
      effects := effects + [effect];
      state := State(state.threads[id := values], state.effects + [effect]);
      Repr := Repr + {thread} + set t | t in turns;
      assert thread.Holds(values);
    }

    method Log(effect: Effect)
      requires Valid()
      modifies this`effects, this`state
      ensures Valid() && state == State(old(state).threads, old(state).effects + [effect])
    {
      effects := effects + [effect];
      state := State(state.threads, state.effects + [effect]);
    }

    /** A new turn at the end of a thread. */
    method AppendTurn(name: string, value: TurnValue)
      requires Valid() && name in threads
      modifies this`state, this`Repr, threads[name]
      ensures Valid() && fresh(Repr - old(Repr)) && threads == old(threads)
      ensures state == State(old(state).threads[name := old(state).threads[name] + [value]], old(state).effects)
    {
      var thread := threads[name];
      ghost var values := state.threads[name];
      var turn := new Turn(value, name, |thread.turns|);
      thread.turns := thread.turns + [turn];
      state := State(state.threads[name := values + [value]], state.effects);
      Repr := Repr + {turn};
      assert thread.Holds(values + [value]);
      forall k | k in threads && k != name ensures threads[k].Holds(state.threads[k]) {
        assert old(threads[k].Holds(state.threads[k]));
      }
    }

    /** `turn/start` on a thread that exists. */
    method AddTurn(name: string, text: string, status: string)
      requires Valid() && name in threads
      modifies Repr
      ensures Valid() && fresh(Repr - old(Repr))
      ensures state == Apply(kind, old(state), StartTurn(name, text, status))
    {
      AppendTurn(name, TurnValue(TurnName(|threads[name].turns|), status, "answer:" + text, false));
      Log(Prompt(name, text));
    }

    /** The turn at place `i` of a thread is interrupted, or asked to be. */
    method MarkTurn(name: string, i: nat, deferred: bool)
      requires Valid() && name in threads && i < |threads[name].turns|
      modifies this`state, threads[name].turns[i]
      ensures Valid()
      ensures var turns := old(state).threads[name];
        state == State(old(state).threads[name := turns[i := Interrupted(turns[i], deferred)]], old(state).effects)
    {
      var thread := threads[name];
      ghost var values := state.threads[name];
      var turn := thread.turns[i];
      if deferred {
        turn.interruptRequested := true;
      } else {
        turn.status := "interrupted";
      }
      state := State(state.threads[name := values[i := Interrupted(values[i], deferred)]], state.effects);
      assert thread.Holds(state.threads[name]);
      forall k | k in threads && k != name ensures threads[k].Holds(state.threads[k]) {
        assert old(threads[k].Holds(state.threads[k]));
        assert forall j | 0 <= j < |threads[k].turns| :: threads[k].turns[j] != turn;
      }
    }

    /** The place of the first turn called `id`, or the end. */
    method FindPlace(name: string, id: string) returns (i: nat)
      requires Valid() && name in threads
      ensures i == FindTurn(state.threads[name], id) && i <= |threads[name].turns| == |state.threads[name]|
    {
      var thread := threads[name];
      ghost var values := state.threads[name];
      assert thread.Holds(values);
      assert forall j | 0 <= j < |values| :: values[j].id == thread.turns[j].id;
      i := 0;
      while i < |thread.turns| && thread.turns[i].id != id
        invariant 0 <= i <= |thread.turns|
        invariant forall j | 0 <= j < i :: thread.turns[j].id != id
      {
        i := i + 1;
      }
      FoundTurn(values, id, i);
    }

    /** `turn/interrupt` on a thread that exists; false when it has no such turn. */
    method StopTurn(name: string, id: string, deferred: bool) returns (found: bool)
      requires Valid() && name in threads
      modifies Repr
      ensures Valid() && Repr == old(Repr)
      ensures found <==> FindTurn(old(state).threads[name], id) < |old(state).threads[name]|
      ensures state == if found then Stopped(kind, old(state), name, id, deferred) else old(state)
    {
      var i := FindPlace(name, id);
      found := i < |threads[name].turns|;
      if found {
        MarkTurn(name, i, deferred && kind == Foreach);
        if kind == Foreach {
          Log(Interrupt(name, id));
        }
      }
    }

    /** One request; false when the handler raises, and then nothing has changed. */
    method Handle(r: Request) returns (ok: bool)
      requires Valid()
      modifies Repr
      ensures Valid() && fresh(Repr - old(Repr))
      ensures ok <==> Accepts(kind, old(state), r)
      ensures state == Apply(kind, old(state), r)
    {
      ok := true;
      match r
      case StartThread =>
        var name := ThreadName(kind, false, |threads|);
        assert |threads| == |threads.Keys| == |state.threads.Keys| == |state.threads|;
        AddThread(name, [], [], Create(name));
      case ForkThread(thread, lastTurn) =>
        if kind != Forking || thread != "source" || lastTurn != "completed-one" || "source" !in threads {
          return false;
        }
        var name := ThreadName(kind, true, |threads|);
        assert |threads| == |threads.Keys| == |state.threads.Keys| == |state.threads|;
        ghost var values := state.threads["source"];
        var turns := threads["source"].turns;
        var copy := CopyTurns(turns, name);
        var read := ReadValues(copy);
        assert read == values;
        AddThread(name, copy, values, Fork(name, lastTurn, read));
      case StartTurn(thread, text, status) =>
        if thread !in threads {
          return false;
        }
        AddTurn(thread, text, status);
      case InterruptTurn(thread, turn, deferred) =>
        if thread !in threads {
          return false;
        }
        ok := StopTurn(thread, turn, deferred);
      case ReadThread(thread) =>
        ok := thread in threads;
    }

    /** The turns as they are printed in a reply. */
    static method ReadValues(turns: seq<Turn>) returns (values: seq<TurnValue>)
      ensures |values| == |turns| && forall i | 0 <= i < |turns| :: values[i] == turns[i].Value()
    {
      values := [];
      for k := 0 to |turns|
        invariant |values| == k && forall i | 0 <= i < k :: values[i] == turns[i].Value()
      {
        values := values + [turns[k].Value()];
      }
    }
  }

  lemma FoundTurn(turns: seq<TurnValue>, id: string, i: nat)
    requires i <= |turns| && (forall j | 0 <= j < i :: turns[j].id != id) && (i < |turns| ==> turns[i].id == id)
    ensures FindTurn(turns, id) == i
  {
  }

  // ------------------------------------------------------------ over all requests

  /** The name was given to the `n`th thread. */
  predicate GivenName(kind: Kind, name: string, n: nat) {
    name == ThreadName(kind, false, n) || name == ThreadName(kind, true, n)
  }

  lemma SuffixesDiffer(prefix: string, m: nat, n: nat)
    requires prefix + Decimal(m) == prefix + Decimal(n)
    ensures m == n
  {
    assert (prefix + Decimal(m))[|prefix|..] == Decimal(m);
    assert (prefix + Decimal(n))[|prefix|..] == Decimal(n);
    DecimalIsInjective(m, n);
  }

  lemma NamesDiffer(kind: Kind, name: string, m: nat, n: nat)
    requires GivenName(kind, name, m) && GivenName(kind, name, n)
    ensures m == n && name != "source"
  {
    assert "fork-child-" + Decimal(m) != "fixture-thread-" + Decimal(n) && "fork-child-" + Decimal(n) != "fixture-thread-" + Decimal(m) by {
      assert ("fork-child-" + Decimal(m))[1] == 'o' && ("fixture-thread-" + Decimal(n))[1] == 'i';
      assert ("fork-child-" + Decimal(n))[1] == 'o' && ("fixture-thread-" + Decimal(m))[1] == 'i';
    }
    if name == "fork-child-" + Decimal(m) {
      SuffixesDiffer("fork-child-", m, n);
    } else {
      SuffixesDiffer("fixture-thread-", m, n);
    }
    assert name[0] == 'f';
  }

  /** Turn `i` has the name of its place, but for the first turn of the source and of its forks. */
  predicate NamedTurns(turns: seq<TurnValue>) {
    forall i | 0 <= i < |turns| :: turns[i].id == TurnName(i) || (i == 0 && turns[i].id == "completed-one")
  }

  lemma TurnIdsDiffer(turns: seq<TurnValue>, i: nat, j: nat)
    requires NamedTurns(turns) && i < |turns| && j < |turns| && turns[i].id == turns[j].id
    ensures i == j
  {
    if turns[i].id == TurnName(i) && turns[j].id == TurnName(j) {
      SuffixesDiffer("turn-", i, j);
    } else {
      assert TurnName(i)[0] == 't' && TurnName(j)[0] == 't';
    }
  }

  /** Every thread but the source has the name that its number gave it, the number being
      below the count of threads; turns are named after their places. */
  ghost predicate WellNamed(kind: Kind, s: State) {
    && (forall k | k in s.threads :: k == "source" || exists n: nat | n < |s.threads| :: GivenName(kind, k, n))
    && (forall k | k in s.threads :: NamedTurns(s.threads[k]))
  }

  lemma NextNameIsNew(kind: Kind, s: State, fork: bool)
    requires WellNamed(kind, s)
    ensures ThreadName(kind, fork, |s.threads|) !in s.threads
  {
    var name := ThreadName(kind, fork, |s.threads|);
    NamesDiffer(kind, name, |s.threads|, |s.threads|);
    if name in s.threads {
      var n: nat :| n < |s.threads| && GivenName(kind, name, n);
      NamesDiffer(kind, name, n, |s.threads|);
    }
  }

  lemma AddedIsWellNamed(kind: Kind, s: State, fork: bool, turns: seq<TurnValue>, effects: seq<Effect>)
    requires WellNamed(kind, s) && NamedTurns(turns)
    ensures WellNamed(kind, State(s.threads[ThreadName(kind, fork, |s.threads|) := turns], effects))
  {
    var name := ThreadName(kind, fork, |s.threads|);
    var threads := s.threads[name := turns];
    NextNameIsNew(kind, s, fork);
    assert threads.Keys == s.threads.Keys + {name};
    assert |threads| == |s.threads| + 1;
    forall k | k in threads ensures k == "source" || exists n: nat | n < |threads| :: GivenName(kind, k, n) {
      if k == name {
        assert GivenName(kind, k, |s.threads|);
      } else if k != "source" {
        var n: nat :| n < |s.threads| && GivenName(kind, k, n);
        assert n < |threads|;
      }
    }
  }

  lemma UpdatedIsWellNamed(kind: Kind, s: State, name: string, turns: seq<TurnValue>, effects: seq<Effect>)
    requires WellNamed(kind, s) && name in s.threads && NamedTurns(turns)
    ensures WellNamed(kind, State(s.threads[name := turns], effects))
  {
    var threads := s.threads[name := turns];
    assert threads.Keys == s.threads.Keys;
    assert |threads| == |threads.Keys| == |s.threads|;
  }

  lemma StoppedIsWellNamed(kind: Kind, s: State, thread: string, turn: string, deferred: bool)
    requires WellNamed(kind, s)
    requires thread in s.threads && FindTurn(s.threads[thread], turn) < |s.threads[thread]|
    ensures WellNamed(kind, Stopped(kind, s, thread, turn, deferred))
  {
    var s' := Stopped(kind, s, thread, turn, deferred);
    UpdatedIsWellNamed(kind, s, thread, s'.threads[thread], s'.effects);
  }

  lemma ApplyIsWellNamed(kind: Kind, s: State, r: Request)
    requires WellNamed(kind, s)
    ensures WellNamed(kind, Apply(kind, s, r))
  {
    if Accepts(kind, s, r) {
      var effects := Apply(kind, s, r).effects;
      match r
      case StartThread => AddedIsWellNamed(kind, s, false, [], effects);
      case ForkThread(_, _) => AddedIsWellNamed(kind, s, true, s.threads["source"], effects);
      case StartTurn(thread, text, status) =>
        var turns := s.threads[thread];
        UpdatedIsWellNamed(kind, s, thread, turns + [TurnValue(TurnName(|turns|), status, "answer:" + text, false)], effects);
      case InterruptTurn(thread, turn, deferred) => StoppedIsWellNamed(kind, s, thread, turn, deferred);
      case ReadThread(_) =>
    }
  }

  lemma {:induction false} RunIsWellNamed(kind: Kind, requests: seq<Request>)
    ensures WellNamed(kind, Run(kind, requests))
  {
    if requests != [] {
      RunIsWellNamed(kind, requests[..|requests| - 1]);
      ApplyIsWellNamed(kind, Run(kind, requests[..|requests| - 1]), requests[|requests| - 1]);
    }
  }

  /** After any requests, a thread that is started or forked gets a new name, so it
      replaces no other thread, and no two turns of a thread have the same name. */
  lemma NamesStayFresh(kind: Kind, requests: seq<Request>)
    ensures var s := Run(kind, requests);
      && ThreadName(kind, false, |s.threads|) !in s.threads
      && ThreadName(kind, true, |s.threads|) !in s.threads
      && forall k, i, j | k in s.threads && 0 <= i < j < |s.threads[k]| :: s.threads[k][i].id != s.threads[k][j].id
  {
    var s := Run(kind, requests);
    RunIsWellNamed(kind, requests);
    NextNameIsNew(kind, s, false);
    NextNameIsNew(kind, s, true);
    forall k, i, j | k in s.threads && 0 <= i < j < |s.threads[k]| ensures s.threads[k][i].id != s.threads[k][j].id {
      if s.threads[k][i].id == s.threads[k][j].id {
        TurnIdsDiffer(s.threads[k], i, j);
      }
    }
  }

  // -------------------------------------------------------------------- the replay

  /** The identity and the text of every turn. */
  function Texts(turns: seq<TurnValue>): (r: seq<(string, string)>)
    ensures |r| == |turns| && forall i | 0 <= i < |turns| :: r[i] == (turns[i].id, turns[i].text)
  {
    if turns == [] then [] else [(turns[0].id, turns[0].text)] + Texts(turns[1..])
  }

  function AllTexts(s: State): map<string, seq<(string, string)>> {
    map k | k in s.threads :: Texts(s.threads[k])
  }

  /** What one effect says about the histories. */
  function Told(before: map<string, seq<(string, string)>>, effect: Effect): map<string, seq<(string, string)>> {
    match effect
    case Create(thread) => before[thread := []]
    case Fork(thread, _, turns) => before[thread := Texts(turns)]
    case Prompt(thread, text) =>
      var turns := if thread in before then before[thread] else [];
      before[thread := turns + [(TurnName(|turns|), "answer:" + text)]]
    case Interrupt(_, _) => before
  }

  /** The histories that the effect log tells. */
  function Replay(kind: Kind, effects: seq<Effect>): map<string, seq<(string, string)>> {
    if effects == [] then AllTexts(Initial(kind))
    else Told(Replay(kind, effects[..|effects| - 1]), effects[|effects| - 1])
  }

  lemma ReplayOn(kind: Kind, effects: seq<Effect>, effect: Effect)
    ensures Replay(kind, effects + [effect]) == Told(Replay(kind, effects), effect)
  {
    assert (effects + [effect])[..|effects|] == effects;
  }

  lemma TextsAfter(s: State, name: string, turns: seq<TurnValue>, effects: seq<Effect>)
    ensures AllTexts(State(s.threads[name := turns], effects)) == AllTexts(s)[name := Texts(turns)]
  {
  }

  lemma PromptKeepsReplay(kind: Kind, s: State, thread: string, text: string, status: string)
    requires Replay(kind, s.effects) == AllTexts(s) && thread in s.threads
    ensures var s' := Apply(kind, s, StartTurn(thread, text, status)); Replay(kind, s'.effects) == AllTexts(s')
  {
    var s' := Apply(kind, s, StartTurn(thread, text, status));
    ReplayOn(kind, s.effects, Prompt(thread, text));
    TextsAfter(s, thread, s'.threads[thread], s'.effects);
    assert Texts(s'.threads[thread]) == Texts(s.threads[thread]) + [(TurnName(|s.threads[thread]|), "answer:" + text)];
  }

  lemma TextsKept(turns: seq<TurnValue>, i: nat, deferred: bool)
    requires i < |turns|
    ensures Texts(turns[i := Interrupted(turns[i], deferred)]) == Texts(turns)
  {
    var turns' := turns[i := Interrupted(turns[i], deferred)];
    assert forall j | 0 <= j < |turns| :: Texts(turns')[j] == Texts(turns)[j];
  }

  lemma InterruptKeepsReplay(kind: Kind, s: State, thread: string, turn: string, deferred: bool)
    requires Replay(kind, s.effects) == AllTexts(s)
    requires thread in s.threads && FindTurn(s.threads[thread], turn) < |s.threads[thread]|
    ensures var s' := Stopped(kind, s, thread, turn, deferred); Replay(kind, s'.effects) == AllTexts(s')
  {
    var s' := Stopped(kind, s, thread, turn, deferred);
    if kind == Foreach {
      ReplayOn(kind, s.effects, Interrupt(thread, turn));
    }
    TextsAfter(s, thread, s'.threads[thread], s'.effects);
    TextsKept(s.threads[thread], FindTurn(s.threads[thread], turn), deferred && kind == Foreach);
    assert AllTexts(s)[thread := Texts(s.threads[thread])] == AllTexts(s);
  }

  lemma ApplyKeepsReplay(kind: Kind, s: State, r: Request)
    requires Replay(kind, s.effects) == AllTexts(s)
    ensures var s' := Apply(kind, s, r); Replay(kind, s'.effects) == AllTexts(s')
  {
    if Accepts(kind, s, r) {
      var s' := Apply(kind, s, r);
      match r
      case StartThread =>
        var name := ThreadName(kind, false, |s.threads|);
        ReplayOn(kind, s.effects, Create(name));
        TextsAfter(s, name, [], s'.effects);
      case ForkThread(_, lastTurn) =>
        var name := ThreadName(kind, true, |s.threads|);
        ReplayOn(kind, s.effects, Fork(name, lastTurn, s.threads["source"]));
        TextsAfter(s, name, s.threads["source"], s'.effects);
      case StartTurn(thread, text, status) => PromptKeepsReplay(kind, s, thread, text, status);
      case InterruptTurn(thread, turn, deferred) => InterruptKeepsReplay(kind, s, thread, turn, deferred);
      case ReadThread(_) =>
    }
  }

  /** After any requests, the effect log rebuilds the identities and texts of every thread. */
  lemma {:induction false} LogRebuildsHistories(kind: Kind, requests: seq<Request>)
    ensures Replay(kind, Run(kind, requests).effects) == AllTexts(Run(kind, requests))
  {
    if requests != [] {
      LogRebuildsHistories(kind, requests[..|requests| - 1]);
      ApplyKeepsReplay(kind, Run(kind, requests[..|requests| - 1]), requests[|requests| - 1]);
    }
  }

  /** The request prompts or interrupts this thread. */
  predicate Touches(r: Request, thread: string) {
    (r.StartTurn? || r.InterruptTurn?) && r.thread == thread
  }

  /** A request leaves the histories of all threads but the one it prompts or interrupts. */
  lemma OtherThreadsKept(kind: Kind, s: State, r: Request, k: string)
    requires k in s.threads && WellNamed(kind, s) && !Touches(r, k)
    ensures k in Apply(kind, s, r).threads && Apply(kind, s, r).threads[k] == s.threads[k]
  {
    NextNameIsNew(kind, s, false);
    NextNameIsNew(kind, s, true);
  }

  lemma {:induction false} KeptOverRun(kind: Kind, before: seq<Request>, later: seq<Request>, k: string)
    requires k in Run(kind, before).threads
    requires forall i | 0 <= i < |later| :: !Touches(later[i], k)
    ensures var s := Run(kind, before + later);
      k in s.threads && s.threads[k] == Run(kind, before).threads[k]
  {
    if later == [] {
      assert before + later == before;
    } else {
      var n := |later| - 1;
      KeptOverRun(kind, before, later[..n], k);
      assert (before + later)[..|before + later| - 1] == before + later[..n];
      RunIsWellNamed(kind, before + later[..n]);
      OtherThreadsKept(kind, Run(kind, before + later[..n]), later[n], k);
    }
  }

  /** Whatever came before, an accepted fork starts as the source's turns, all of them, at
      that moment; and while requests touch neither, source and fork both stay as they were.
      Prompting or interrupting the one therefore never shows in the other. */
  lemma ForkStartsAsSource(before: seq<Request>, fork: Request, later: seq<Request>)
    requires fork.ForkThread? && Accepts(Forking, Run(Forking, before), fork)
    ensures var s := Run(Forking, before);
      var name := ThreadName(Forking, true, |s.threads|);
      var s' := Run(Forking, before + [fork] + later);
      && name !in s.threads
      && ((forall i | 0 <= i < |later| :: !Touches(later[i], name)) ==>
            name in s'.threads && s'.threads[name] == s.threads["source"])
      && ((forall i | 0 <= i < |later| :: !Touches(later[i], "source")) ==>
            "source" in s'.threads && s'.threads["source"] == s.threads["source"])
  {
    var s := Run(Forking, before);
    var name := ThreadName(Forking, true, |s.threads|);
    assert (before + [fork])[..|before|] == before;
    RunIsWellNamed(Forking, before);
    NextNameIsNew(Forking, s, true);
    if forall i | 0 <= i < |later| :: !Touches(later[i], name) {
      KeptOverRun(Forking, before + [fork], later, name);
    }
    if forall i | 0 <= i < |later| :: !Touches(later[i], "source") {
      KeptOverRun(Forking, before + [fork], later, "source");
    }
  }

  // ------------------------------------------------------- the turn that a fork names

  predicate PromptsSource(r: Request) {
    r.StartTurn? && r.thread == "source"
  }

  function SourcePrompts(requests: seq<Request>): nat {
    if requests == [] then 0
    else SourcePrompts(requests[..|requests| - 1]) + if PromptsSource(requests[|requests| - 1]) then 1 else 0
  }

  lemma {:induction false} NoSourcePrompts(requests: seq<Request>)
    ensures SourcePrompts(requests) == 0 <==> forall i | 0 <= i < |requests| :: !PromptsSource(requests[i])
  {
    if requests != [] {
      NoSourcePrompts(requests[..|requests| - 1]);
    }
  }

  /** The source begins with its completed turn and then has one turn for each prompt. */
  ghost predicate SourceIs(s: State, prompts: nat) {
    "source" in s.threads && |s.threads["source"]| == 1 + prompts && s.threads["source"][0].id == "completed-one"
  }

  lemma ApplyKeepsSource(s: State, r: Request, prompts: nat)
    requires WellNamed(Forking, s) && SourceIs(s, prompts)
    ensures SourceIs(Apply(Forking, s, r), prompts + if PromptsSource(r) then 1 else 0)
  {
    if !Touches(r, "source") {
      OtherThreadsKept(Forking, s, r, "source");
    }
  }

  lemma {:induction false} SourceGrows(requests: seq<Request>)
    ensures SourceIs(Run(Forking, requests), SourcePrompts(requests))
  {
    if requests != [] {
      var before := requests[..|requests| - 1];
      SourceGrows(before);
      RunIsWellNamed(Forking, before);
      ApplyKeepsSource(Run(Forking, before), requests[|requests| - 1], SourcePrompts(before));
    }
  }

  /** The turns that a fork gets. */
  function Forked(before: seq<Request>, fork: Request): seq<TurnValue>
    requires fork.ForkThread? && Accepts(Forking, Run(Forking, before), fork)
  {
    Apply(Forking, Run(Forking, before), fork).threads[ThreadName(Forking, true, |Run(Forking, before).threads|)]
  }

  /** An accepted fork keeps to the turn it names, the history up to that turn and no more,
      exactly when the source was not prompted before. */
  lemma ForkKeepsToItsTurn(before: seq<Request>, fork: Request)
    requires fork.ForkThread? && Accepts(Forking, Run(Forking, before), fork)
    ensures var source := Run(Forking, before).threads["source"];
      var named := FindTurn(source, fork.lastTurn);
      && named < |source|
      && (Forked(before, fork) == source[..named + 1] <==> forall i | 0 <= i < |before| :: !PromptsSource(before[i]))
  {
    var source := Run(Forking, before).threads["source"];
    SourceGrows(before);
    NoSourcePrompts(before);
    assert FindTurn(source, fork.lastTurn) == 0;
    assert Forked(before, fork) == source;
    assert |source| == 1 ==> source[..1] == source;
  }

  /** After one prompt the fork of the first turn has both turns. */
  lemma ForkTakesLaterTurn()
    ensures var before := [StartTurn("source", "more", "completed")];
      var fork := ForkThread("source", "completed-one");
      && Accepts(Forking, Run(Forking, before), fork)
      && Forked(before, fork) == [TurnValue("completed-one", "completed", "common checkpoint", false),
                                  TurnValue("turn-1", "completed", "answer:more", false)]
  {
    var before := [StartTurn("source", "more", "completed")];
    assert before[..0] == [];
    assert Run(Forking, before[..0]) == Initial(Forking);
    assert Run(Forking, before) == Apply(Forking, Initial(Forking), before[0]);
    assert Decimal(1) == "1" && TurnName(1) == "turn-1" && "answer:" + "more" == "answer:more";
    var source := Run(Forking, before).threads["source"];
    assert source == [TurnValue("completed-one", "completed", "common checkpoint", false)]
                     + [TurnValue("turn-1", "completed", "answer:more", false)];
    assert FindTurn(source, "completed-one") == 0;
  }

  // ------------------------------------------- what each request does, told by the threads

  /** Turn `i` is the first of this name. */
  ghost predicate FirstNamed(turns: seq<TurnValue>, i: int, id: string) {
    0 <= i < |turns| && turns[i].id == id && forall j | 0 <= j < i :: turns[j].id != id
  }

  lemma FirstNamedIsFound(turns: seq<TurnValue>, id: string)
    ensures FindTurn(turns, id) < |turns| <==> exists i :: FirstNamed(turns, i, id)
    ensures forall i | FirstNamed(turns, i, id) :: FindTurn(turns, id) == i
  {
    if FindTurn(turns, id) < |turns| {
      assert FirstNamed(turns, FindTurn(turns, id), id);
    }
    forall i | FirstNamed(turns, i, id) ensures FindTurn(turns, id) == i {
      FoundTurn(turns, id, i);
    }
  }

  /** A request raises exactly if the thread is unknown, if it is an interrupt of a turn that the
      thread does not have, or if it is a fork of anything but the source at its first turn. */
  lemma AcceptedIff(kind: Kind, s: State, r: Request)
    ensures Accepts(kind, s, r) <==>
              && (r.StartTurn? || r.InterruptTurn? || r.ReadThread? || r.ForkThread? ==> r.thread in s.threads)
              && (r.InterruptTurn? ==> exists i :: 0 <= i < |s.threads[r.thread]| && s.threads[r.thread][i].id == r.turn)
              && (r.ForkThread? ==> kind == Forking && r.thread == "source" && r.lastTurn == "completed-one")
  {
    if r.InterruptTurn? && r.thread in s.threads {
      var turns := s.threads[r.thread];
      FirstNamedIsFound(turns, r.turn);
    }
  }

  /** A prompt appends one turn, with the status that was asked for and the answer to the text,
      to the one thread, and is logged. */
  lemma PromptAppends(kind: Kind, s: State, thread: string, text: string, status: string)
    requires thread in s.threads
    ensures var s' := Apply(kind, s, StartTurn(thread, text, status));
      && s'.threads.Keys == s.threads.Keys && (forall k | k in s.threads && k != thread :: s'.threads[k] == s.threads[k])
      && var turns, turns' := s.threads[thread], s'.threads[thread];
      && |turns'| == |turns| + 1 && turns'[..|turns|] == turns
      && var turn := turns'[|turns|];
      && turn.id == "turn-" + Decimal(|turns|) && turn.status == status && turn.text == "answer:" + text && !turn.interruptRequested
      && s'.effects == s.effects + [Prompt(thread, text)]
  {
  }

  /** An interrupt changes one turn, the first of its name. It asks it to stop, if the store
      defers and the request says so, and else sets its status; only that store logs it. */
  lemma InterruptMarks(kind: Kind, s: State, thread: string, turn: string, deferred: bool, i: int)
    requires thread in s.threads && FirstNamed(s.threads[thread], i, turn)
    ensures var s' := Apply(kind, s, InterruptTurn(thread, turn, deferred));
      && s'.threads.Keys == s.threads.Keys && (forall k | k in s.threads && k != thread :: s'.threads[k] == s.threads[k])
      && var turns, turns' := s.threads[thread], s'.threads[thread];
      && |turns'| == |turns| && (forall j | 0 <= j < |turns| && j != i :: turns'[j] == turns[j])
      && turns'[i].id == turns[i].id && turns'[i].text == turns[i].text
      && (if kind == Foreach && deferred then turns'[i].status == turns[i].status && turns'[i].interruptRequested
          else turns'[i].status == "interrupted" && turns'[i].interruptRequested == turns[i].interruptRequested)
      && s'.effects == s.effects + if kind == Foreach then [Interrupt(thread, turn)] else []
  {
    FirstNamedIsFound(s.threads[thread], turn);
  }

  /** A started thread has no turn, and every other thread stays as it was. */
  lemma StartAdds(kind: Kind, requests: seq<Request>)
    ensures var s, s' := Run(kind, requests), Run(kind, requests + [StartThread]);
      var name := "fixture-thread-" + Decimal(|s.threads|);
      && name !in s.threads && s'.threads == s.threads[name := []] && s'.effects == s.effects + [Create(name)]
  {
    assert (requests + [StartThread])[..|requests|] == requests;
    RunIsWellNamed(kind, requests);
    NextNameIsNew(kind, Run(kind, requests), false);
  }

  /** A fork adds one thread with the turns of the source, and its log entry tells the turn that was
      named and the turns that were copied. */
  lemma ForkAdds(requests: seq<Request>, lastTurn: string)
    requires Accepts(Forking, Run(Forking, requests), ForkThread("source", lastTurn))
    ensures var s, s' := Run(Forking, requests), Run(Forking, requests + [ForkThread("source", lastTurn)]);
      var name := "fork-child-" + Decimal(|s.threads|);
      && name !in s.threads && s'.threads == s.threads[name := s.threads["source"]]
      && s'.effects == s.effects + [Fork(name, lastTurn, s.threads["source"])]
  {
    var fork := ForkThread("source", lastTurn);
    assert (requests + [fork])[..|requests|] == requests;
    RunIsWellNamed(Forking, requests);
    NextNameIsNew(Forking, Run(Forking, requests), true);
  }

  /** A read, and a request that raises, leave everything as it was. */
  lemma NothingHappens(kind: Kind, s: State, r: Request)
    requires r.ReadThread? || !Accepts(kind, s, r)
    ensures Apply(kind, s, r) == s
  {
  }
}
