/** The outside world of the acceptance scripts: native RPC, status reader, raw
    usage observer, receipt files and the clock. What it answers, and what the clock shows,
    is an arbitrary function of everything that happened before, so a statement about every
    `World` is a statement about every server, every failure and every schedule. */
module Native {
  import Word
  import opened Values

  /** The receipts that are written into the work directory. */
  datatype File =
    | Prompt | NativeStart | McpReadback | StatusBefore | GoalBefore
    | LatestStatus | EnrollmentReceipt | NativeFinal | PauseReceipt
    | OperatorReplied | RawReplay | LastStatus

  datatype Call =
    | ThreadStart
    | McpStatus(thread: Json)
    | HistoryHome(path: Word.Token)
    | ReadStatus(thread: Json)
    | GoalSetup(thread: Json, tokenBudget: int)
    | GoalActivate(thread: Json)
    | GoalPause(thread: Json, automatic: bool)
    | GoalGet(thread: Json)
    | TurnsList(thread: Json, cursor: Option<Json>)
    | TurnInterrupt(thread: Json, turn: Json)
    | TerminalsList(thread: Json)
    | TerminalTerminate(thread: Json, process: Word.Token)
    | ThreadRead(thread: Json)
    | ThreadResume(thread: Json)
    | ToolCall(thread: Json, tool: string)
    | TurnStart(thread: Json)
    | CheckpointFile
    | ObserveRaw(thread: Json, created: Json)
    | Save(file: File)
    | Clock
    | Sleep

  datatype Event = Did(call: Call, reply: Result<Json>)

  type Server = (seq<Event>, Call) -> Result<Json>

  /** `trace` after one more call. */
  function Asked(srv: Server, trace: seq<Event>, call: Call): seq<Event> {
    trace + [Did(call, srv(trace, call))]
  }

  /** A phase that is a function of the server: the history after it, and its result. */
  datatype Step<+T> = Step(trace: seq<Event>, value: Result<T>)

  /** The clock was read and showed `time`. */
  function Shown(time: real): Event {
    Did(Clock, Ok(Real(time)))
  }

  const Slept: Event := Did(Sleep, Ok(Null))

  /** The reading that ended a loop, if its time was up. */
  function TooLate(late: Option<real>): seq<Event> {
    if late.Some? then [Shown(late.value)] else []
  }

  // --------------------------------------------------------------------- histories

  lemma Regroup(a: seq<Event>, b: seq<Event>, c: seq<Event>)
    ensures a + b + c == a + (b + c)
  {
  }

  lemma RoundRegroup(before: seq<Event>, rounds: seq<Event>, a: seq<Event>, b: seq<Event>, c: seq<Event>)
    ensures before + rounds + a + b + c == before + (rounds + (a + b + c))
  {
  }

  // -------------------------------------------------------------------------- time

  /** Time never runs backwards, may jump by any amount, and a sleep takes a fifth of a
      second at least. */
  ghost predicate Ticks(time: seq<Event> -> real) {
    forall trace, event {:trigger time(trace + [event])} ::
      time(trace + [event]) >= time(trace) + if event.call.Sleep? then 0.2 else 0.0
  }

  function SleepTime(trace: seq<Event>): real {
    if trace == [] then 0.0
    else SleepTime(trace[..|trace| - 1]) + if trace[|trace| - 1].call.Sleep? then 0.2 else 0.0
  }

  lemma SleepTimeTicks()
    ensures Ticks(trace => SleepTime(trace))
  {
    forall trace: seq<Event>, event: Event
      ensures SleepTime(trace + [event]) == SleepTime(trace) + if event.call.Sleep? then 0.2 else 0.0
    {
      assert (trace + [event])[..|trace|] == trace;
    }
  }

  /** The time after each history. */
  type Timing = time: seq<Event> -> real | Ticks(time) ghost witness (SleepTimeTicks(); trace => SleepTime(trace))

  /** What `n` sleeps take at least. */
  function Slack(n: nat): real {
    if n == 0 then 0.0 else Slack(n - 1) + 0.2
  }

  lemma SlackGrows(m: nat, n: nat)
    ensures Slack(m + n) == Slack(m) + Slack(n) && Slack(n) >= 0.0
  {
    if n > 0 {
      SlackGrows(m, n - 1);
      assert m + n - 1 == m + (n - 1);
    }
  }

  /** A loop of `n` rounds that began at `from` and was left at `to`: it sleeps between its
      rounds and begins none after `end`. */
  ghost predicate LoopTimed(from: real, to: real, end: real, n: nat) {
    to >= from + Slack(n) - 0.2 && (n > 0 ==> from + Slack(n) - 0.2 < end)
  }

  lemma TimedLater(from: real, begun: real, to: real, stop: real, end: real, n: nat)
    requires LoopTimed(begun, to, stop, n) && from <= begun && stop <= end
    ensures LoopTimed(from, to, end, n)
  {
  }

  /** Three loops in a row that stop at the same `end`. */
  lemma ThreeLoops(t0: real, t1: real, t2: real, t3: real, t4: real, t5: real, end: real, l: nat, m: nat, n: nat)
    requires LoopTimed(t0, t1, end, l) && LoopTimed(t2, t3, end, m) && LoopTimed(t4, t5, end, n)
    requires t1 <= t2 && t3 <= t4
    ensures l + m + n > 2 ==> t0 + Slack(l + m + n) - 0.6 < end
  {
    SlackGrows(l, m);
    SlackGrows(l + m, n);
  }

  lemma SlackIsFifths(n: nat)
    ensures Slack(n) * 5.0 == n as real
  {
  }

  // ------------------------------------------------------------------------- world

  /** Event `i` is what the server answered, or what the clock showed. */
  ghost predicate Genuine(server: Server, timing: Timing, trace: seq<Event>, i: nat)
    requires i < |trace|
  {
    match trace[i].call
    case Clock => trace[i] == Shown(timing(trace[..i]))
    case Sleep => trace[i] == Slept
    case call => trace[i].reply == server(trace[..i], call)
  }

  ghost predicate AllGenuine(server: Server, timing: Timing, trace: seq<Event>) {
    forall i | 0 <= i < |trace| :: Genuine(server, timing, trace, i)
  }

  lemma OneMoreGenuine(server: Server, timing: Timing, trace: seq<Event>, event: Event)
    requires AllGenuine(server, timing, trace)
    requires Genuine(server, timing, trace + [event], |trace|)
    ensures AllGenuine(server, timing, trace + [event])
  {
    var trace' := trace + [event];
    forall i | 0 <= i < |trace'| ensures Genuine(server, timing, trace', i) {
      if i < |trace| {
        assert Genuine(server, timing, trace, i);
        assert trace'[..i] == trace[..i];
      }
    }
  }

  class World {
    const server: Server
    const timing: Timing
    var trace: seq<Event>

    /** Nothing in the history is made up. */
    ghost predicate Valid()
      reads this
    {
      AllGenuine(server, timing, trace)
    }

    function Now(): real
      reads this
    {
      timing(trace)
    }

    constructor (server: Server, timing: Timing)
      ensures this.server == server && this.timing == timing && trace == [] && Valid()
    {
      this.server, this.timing := server, timing;
      trace := [];
    }

    /** One call. */
    method Ask(call: Call) returns (reply: Result<Json>)
      requires Valid() && call != Clock && call != Sleep
      modifies this
      ensures trace == Asked(server, old(trace), call)
      ensures reply == server(old(trace), call)
      ensures Now() >= old(Now())
      ensures Valid()
    {
      reply := server(trace, call);
      ghost var before := trace;
      trace := trace + [Did(call, reply)];
      assert trace[..|before|] == before;
      OneMoreGenuine(server, timing, before, Did(call, reply));
    }

    /** A reading of the clock. */
    method ReadClock() returns (time: real)
      requires Valid()
      modifies this
      ensures trace == old(trace) + [Shown(time)]
      ensures time == old(Now()) && Now() >= time
      ensures Valid()
    {
      time := timing(trace);
      ghost var before := trace;
      trace := trace + [Shown(time)];
      assert trace[..|before|] == before;
      OneMoreGenuine(server, timing, before, Shown(time));
    }

    /** A sleep of a fifth of a second. */
    method SleepABit()
      requires Valid()
      modifies this
      ensures trace == old(trace) + [Slept]
      ensures Now() >= old(Now()) + 0.2
      ensures Valid()
    {
      ghost var before := trace;
      trace := trace + [Slept];
      OneMoreGenuine(server, timing, before, Slept);
    }
  }
}
