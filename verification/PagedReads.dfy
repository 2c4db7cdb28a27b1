/** What the paged turn listing does against any server, and against a fixed chain of pages. */
module PagedReads {
  import opened Values
  import opened Native
  import opened Cleanup

  function Next(reply: Result<Json>): Json {
    match PageOf(reply)
    case Ok(page) => page.next
    case Err(_) => Null
  }

  function Items(reply: Result<Json>): seq<Json> {
    match PageOf(reply)
    case Ok(page) => page.items
    case Err(_) => []
  }

  /** The rows of all the pages, in the order in which they were asked for. */
  function AllItems(events: seq<Event>): seq<Json> {
    if events == [] then [] else Items(events[0].reply) + AllItems(events[1..])
  }

  /** `events` is a run of page requests that starts at `cursor` and follows each
      page's next cursor, which is never empty and never in `seen` or sent before. */
  ghost predicate FollowsPages(thread: Json, cursor: Option<Json>, seen: set<Json>, events: seq<Event>)
    decreases |events|
  {
    events != [] ==>
      && events[0].call == TurnsList(thread, cursor)
      && (|events| > 1 ==>
            var next := Next(events[0].reply);
            && PageOf(events[0].reply).Ok?
            && NonemptyStr(next) && next !in seen
            && FollowsPages(thread, Some(next), seen + {next}, events[1..]))
  }

  ghost predicate NoCursorTwice(events: seq<Event>) {
    forall i, j | 0 <= i < j < |events| :: events[i].call != events[j].call
  }

  lemma {:induction false} FollowingRepeatsNoCursor(thread: Json, cursor: Option<Json>, seen: set<Json>, events: seq<Event>)
    requires FollowsPages(thread, cursor, seen, events)
    requires cursor.Some? ==> cursor.value in seen
    ensures NoCursorTwice(events)
    ensures forall i | 0 < i < |events| ::
              events[i].call.TurnsList? && events[i].call.cursor.Some? && events[i].call.cursor.value !in seen
    decreases |events|
  {
    if |events| > 1 {
      var next := Next(events[0].reply);
      FollowingRepeatsNoCursor(thread, Some(next), seen + {next}, events[1..]);
      forall i | 0 < i < |events|
        ensures events[i].call.TurnsList? && events[i].call.cursor.Some? && events[i].call.cursor.value !in seen
      {
        assert events[i] == events[1..][i - 1];
      }
      forall i, j | 0 <= i < j < |events| ensures events[i].call != events[j].call {
        assert events[j] == events[1..][j - 1];
        if i > 0 {
          assert events[i] == events[1..][i - 1];
        }
      }
    }
  }

  lemma FirstEvent(trace: seq<Event>, event: Event, after: seq<Event>)
    requires trace + [event] <= after
    ensures var events, rest := after[|trace|..], after[|trace| + 1..];
      && events != [] && events[0] == event && events[1..] == rest
      && AllItems(events) == Items(event.reply) + AllItems(rest)
      && (rest != [] ==> events[|events| - 1] == rest[|rest| - 1])
  {
    assert after[|trace|..][1..] == after[|trace| + 1..];
  }

  lemma {:induction false} TurnsFromFollowsPages(
      srv: Server, trace: seq<Event>, thread: Json, cursor: Option<Json>, seen: set<Json>, rows: seq<Json>, left: nat)
    ensures var step := TurnsFrom(srv, trace, thread, cursor, seen, rows, left);
      && trace <= step.trace
      && var events := step.trace[|trace|..];
      && |events| <= left
      && FollowsPages(thread, cursor, seen, events)
      && (step.value.Ok? ==>
            && events != []
            && Next(events[|events| - 1].reply) == Null
            && step.value.value == rows + AllItems(events))
    decreases left
  {
    if left != 0 {
      var call := TurnsList(thread, cursor);
      var reply := srv(trace, call);
      var trace' := Asked(srv, trace, call);
      var step := TurnsFrom(srv, trace, thread, cursor, seen, rows, left);
      var next := Next(reply);
      if PageOf(reply).Ok? && NonemptyStr(next) && next !in seen {
        TurnsFromFollowsPages(srv, trace', thread, Some(next), seen + {next}, rows + Items(reply), left - 1);
        FirstEvent(trace, Did(call, reply), step.trace);
      } else {
        assert step.trace[|trace|..] == [Did(call, reply)];
        assert AllItems([Did(call, reply)]) == Items(reply);
      }
    }
  }

  /** Against any server: at most 32 requests, no cursor sent twice, and rows are
      returned only after a page without a next cursor. */
  lemma AllTurnsFollowsPages(srv: Server, trace: seq<Event>, thread: Json)
    ensures var step := AllTurns(srv, trace, thread);
      && trace <= step.trace
      && var events := step.trace[|trace|..];
      && |events| <= PAGE_BOUND
      && FollowsPages(thread, None, {}, events)
      && NoCursorTwice(events)
      && (step.value.Ok? ==>
            && events != []
            && Next(events[|events| - 1].reply) == Null
            && step.value.value == AllItems(events))
  {
    TurnsFromFollowsPages(srv, trace, thread, None, {}, [], PAGE_BOUND);
    FollowingRepeatsNoCursor(thread, None, {}, AllTurns(srv, trace, thread).trace[|trace|..]);
  }

  // ------------------------------------------------- a fixed chain of pages

  /** The cursor of page `k` when every page depends on its cursor alone. */
  function CursorOf(pages: Option<Json> -> Result<Json>, k: nat): Option<Json> {
    if k == 0 then None else Some(Next(pages(CursorOf(pages, k - 1))))
  }

  function ChainItems(pages: Option<Json> -> Result<Json>, n: nat): seq<Json> {
    if n == 0 then [] else ChainItems(pages, n - 1) + Items(pages(CursorOf(pages, n - 1)))
  }

  /** The cursors of pages 1 to `k`. */
  function SentCursors(pages: Option<Json> -> Result<Json>, k: nat): set<Json> {
    if k == 0 then {} else SentCursors(pages, k - 1) + {CursorOf(pages, k).value}
  }

  /** Page `k` can be read, and leads to another one by a cursor not used before. */
  ghost predicate Advances(pages: Option<Json> -> Result<Json>, k: nat) {
    && PageOf(pages(CursorOf(pages, k))).Ok?
    && NonemptyStr(CursorOf(pages, k + 1).value)
    && CursorOf(pages, k + 1).value !in SentCursors(pages, k)
  }

  /** The chain has `n` pages, and no cursor on the way is empty or repeated. */
  ghost predicate EndsAt(pages: Option<Json> -> Result<Json>, n: nat) {
    && n > 0
    && (forall k | 0 <= k < n - 1 :: Advances(pages, k))
    && PageOf(pages(CursorOf(pages, n - 1))).Ok?
    && CursorOf(pages, n) == Some(Null)
  }

  ghost predicate Serves(srv: Server, thread: Json, pages: Option<Json> -> Result<Json>) {
    forall trace, cursor :: srv(trace, TurnsList(thread, cursor)) == pages(cursor)
  }

  /** The read in progress once the first `k` pages have led on. */
  function ChainFrom(srv: Server, trace: seq<Event>, thread: Json, pages: Option<Json> -> Result<Json>, k: nat)
    : Result<seq<Json>>
    requires k <= PAGE_BOUND
  {
    TurnsFrom(srv, trace, thread, CursorOf(pages, k), SentCursors(pages, k), ChainItems(pages, k), PAGE_BOUND - k).value
  }

  lemma {:induction false} ReturnedChainEnds(
      srv: Server, trace: seq<Event>, thread: Json, pages: Option<Json> -> Result<Json>, k: nat) returns (n: nat)
    requires Serves(srv, thread, pages)
    requires k <= PAGE_BOUND
    requires forall j | 0 <= j < k :: Advances(pages, j)
    requires ChainFrom(srv, trace, thread, pages, k).Ok?
    ensures k < n <= PAGE_BOUND && EndsAt(pages, n)
    decreases PAGE_BOUND - k
  {
    var call := TurnsList(thread, CursorOf(pages, k));
    var next := Next(srv(trace, call));
    assert CursorOf(pages, k + 1) == Some(next);
    if next == Null {
      n := k + 1;
    } else {
      n := ReturnedChainEnds(srv, Asked(srv, trace, call), thread, pages, k + 1);
    }
  }

  lemma {:induction false} EndingChainReturned(
      srv: Server, trace: seq<Event>, thread: Json, pages: Option<Json> -> Result<Json>, k: nat, n: nat)
    requires Serves(srv, thread, pages)
    requires k < n <= PAGE_BOUND && EndsAt(pages, n)
    ensures ChainFrom(srv, trace, thread, pages, k) == Ok(ChainItems(pages, n))
    decreases n - k
  {
    var call := TurnsList(thread, CursorOf(pages, k));
    var next := Next(srv(trace, call));
    assert CursorOf(pages, k + 1) == Some(next);
    if k + 1 < n {
      assert Advances(pages, k);
      EndingChainReturned(srv, Asked(srv, trace, call), thread, pages, k + 1, n);
    }
  }

  /** On a fixed chain the listing succeeds exactly when the chain ends within 32
      pages without an empty or repeated cursor, and then returns its pages in order. */
  lemma FixedChain(srv: Server, trace: seq<Event>, thread: Json, pages: Option<Json> -> Result<Json>)
    requires Serves(srv, thread, pages)
    ensures var r := AllTurns(srv, trace, thread).value;
      && (r.Ok? <==> exists n | 0 < n <= PAGE_BOUND :: EndsAt(pages, n))
      && (forall n | 0 < n <= PAGE_BOUND && EndsAt(pages, n) :: r == Ok(ChainItems(pages, n)))
  {
    assert AllTurns(srv, trace, thread).value == ChainFrom(srv, trace, thread, pages, 0);
    if ChainFrom(srv, trace, thread, pages, 0).Ok? {
      var n := ReturnedChainEnds(srv, trace, thread, pages, 0);
    }
    forall n | 0 < n <= PAGE_BOUND && EndsAt(pages, n)
      ensures AllTurns(srv, trace, thread).value == Ok(ChainItems(pages, n))
    {
      EndingChainReturned(srv, trace, thread, pages, 0, n);
    }
  }
}
