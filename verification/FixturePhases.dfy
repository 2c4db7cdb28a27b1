/** The request phases of the native journey fixture, `Handler.do_POST` in
    scripts/goal_limit_native_ux_acceptance.py, and its final phase count. */
module FixturePhases {

  datatype State = AtWarmup | AtEnrollment | AtWork | AtOperatorApply | AtOperatorFinal | Done

  datatype Phase =
    | Warmup | Enrollment | WorkStream | CheckpointContinuation
    | OperatorExtend | OperatorApply | OperatorFinal | Unexpected

  /** What the handler reads off a request; `operatorStarted` is the event at that moment. */
  datatype Request = Request(sized: bool, json: bool, operatorReply: bool, checkpointSteer: bool, operatorStarted: bool)

  datatype Response = TooLarge | Broken | OverCap | Conflict | Served

  datatype Call = Call(number: nat, phase: Phase, json: bool, response: Response)

  /** The state kept under the mutex. */
  datatype Fixture = Fixture(state: State, workResponses: nat, calls: seq<Call>)

  const Initial: Fixture := Fixture(AtWarmup, 0, [])

  function PhaseOf(f: Fixture, r: Request): Phase {
    if !r.operatorReply then
      match f.state
      case AtWarmup => Warmup
      case AtEnrollment => Enrollment
      case AtWork =>
        if f.workResponses == 0 then WorkStream
        else if f.workResponses == 1 && r.checkpointSteer then CheckpointContinuation
        else Unexpected
      case _ => Unexpected
    else if !r.operatorStarted then Unexpected
    else
      match f.state
      case AtWork => OperatorExtend
      case AtOperatorApply => OperatorApply
      case AtOperatorFinal => OperatorFinal
      case _ => Unexpected
  }

  function Next(state: State, phase: Phase): State {
    match phase
    case Warmup => AtEnrollment
    case Enrollment => AtWork
    case OperatorExtend => AtOperatorApply
    case OperatorApply => AtOperatorFinal
    case OperatorFinal => Done
    case _ => state
  }

  function Answer(number: nat, cap: nat, phase: Phase, json: bool): Response {
    if !json then Broken else if number > cap then OverCap else if phase == Unexpected then Conflict else Served
  }

  function Post(f: Fixture, r: Request, cap: nat): Fixture {
    if !r.sized then f
    else
      var phase := PhaseOf(f, r);
      var number := |f.calls| + 1;
      Fixture(Next(f.state, phase),
              f.workResponses + if f.state == AtWork && !r.operatorReply then 1 else 0,
              f.calls + [Call(number, phase, r.json, Answer(number, cap, phase, r.json))])
  }

  /** The fixture after a sequence of requests. */
  function After(requests: seq<Request>, cap: nat): Fixture {
    if requests == [] then Initial
    else Post(After(requests[..|requests| - 1], cap), requests[|requests| - 1], cap)
  }

  class Handler {
    var state: State
    var workResponses: nat
    var calls: seq<Call>
    const cap: nat

    function Abstract(): Fixture
      reads this
    {
      Fixture(state, workResponses, calls)
    }

    constructor (cap: nat)
      ensures Abstract() == Initial && this.cap == cap
    {
      state, workResponses, calls, this.cap := AtWarmup, 0, [], cap;
    }

    /** `do_POST`, up to the streaming of the reply. */
    method DoPost(r: Request) returns (response: Response)
      modifies this
      ensures Abstract() == Post(old(Abstract()), r, cap)
      ensures response == if r.sized then calls[|calls| - 1].response else TooLarge
    {
      if !r.sized {
        return TooLarge;
      }
      var number := |calls| + 1;
      var phase := Unexpected;
      if !r.operatorReply && state == AtWarmup {
        phase := Warmup;
        state := AtEnrollment;
      } else if !r.operatorReply && state == AtEnrollment {
        phase := Enrollment;
        state := AtWork;
      } else if !r.operatorReply && state == AtWork {
        var count := workResponses;
        if count == 0 {
          phase := WorkStream;
        } else if count == 1 && r.checkpointSteer {
          phase := CheckpointContinuation;
        }
        workResponses := workResponses + 1;
      } else if r.operatorReply && r.operatorStarted {
        if state == AtWork {
          phase := OperatorExtend;
          state := AtOperatorApply;
        } else if state == AtOperatorApply {
          phase := OperatorApply;
          state := AtOperatorFinal;
        } else if state == AtOperatorFinal {
          phase := OperatorFinal;
          state := Done;
        }
      }
      response := Answer(number, cap, phase, r.json);
      calls := calls + [Call(number, phase, r.json, response)];
    }
  }

  // ------------------------------------------------------------ the accepted phases

  /** The phases of the accepted calls, in order. */
  function Accepted(calls: seq<Call>): seq<Phase> {
    if calls == [] then []
    else
      var last := calls[|calls| - 1].phase;
      Accepted(calls[..|calls| - 1]) + if last == Unexpected then [] else [last]
  }

  /** The part of a journey up to the operator's first request, with or without streamed
      work and its continuation. */
  function Working(stream: bool, continuation: bool): seq<Phase> {
    if !stream then [Warmup, Enrollment]
    else if !continuation then [Warmup, Enrollment, WorkStream]
    else [Warmup, Enrollment, WorkStream, CheckpointContinuation]
  }

  /** The part of a journey that leads to a state. */
  function WordAt(state: State, stream: bool, continuation: bool): seq<Phase> {
    match state
    case AtWarmup => []
    case AtEnrollment => [Warmup]
    case AtWork => Working(stream, continuation)
    case AtOperatorApply => Working(stream, continuation) + [OperatorExtend]
    case AtOperatorFinal => Working(stream, continuation) + [OperatorExtend] + [OperatorApply]
    case Done => Journey(stream, continuation)
  }

  /** A complete journey. */
  function Journey(stream: bool, continuation: bool): seq<Phase> {
    Working(stream, continuation) + [OperatorExtend] + [OperatorApply] + [OperatorFinal]
  }

  lemma AcceptedOn(calls: seq<Call>, call: Call)
    ensures Accepted(calls + [call]) == Accepted(calls) + if call.phase == Unexpected then [] else [call.phase]
  {
    assert (calls + [call])[..|calls|] == calls;
  }

  /** The accepted phases follow from the state, and from whether work was streamed and
      continued. */
  ghost predicate Tracked(f: Fixture, continuation: bool) {
    && Accepted(f.calls) == WordAt(f.state, f.workResponses > 0, continuation)
    && (continuation ==> f.workResponses > 1)
    && (f.state == AtWarmup || f.state == AtEnrollment ==> f.workResponses == 0)
  }

  lemma WordsGrow(continuation: bool)
    ensures [] + [Warmup] == WordAt(AtEnrollment, false, continuation)
    ensures [Warmup] + [Enrollment] == Working(false, continuation)
    ensures Working(false, continuation) + [WorkStream] == Working(true, false)
    ensures Working(true, false) + [CheckpointContinuation] == Working(true, true)
  {
  }

  /** How a phase that is accepted moves the state and the word. */
  lemma WordFollows(f: Fixture, r: Request, continuation: bool)
    requires PhaseOf(f, r) != Unexpected
    requires continuation ==> f.workResponses > 1
    requires f.state == AtWarmup || f.state == AtEnrollment ==> f.workResponses == 0
    ensures var phase := PhaseOf(f, r);
      var work := f.workResponses + if f.state == AtWork && !r.operatorReply then 1 else 0;
      WordAt(f.state, f.workResponses > 0, continuation) + [phase]
        == WordAt(Next(f.state, phase), work > 0, continuation || phase == CheckpointContinuation)
  {
    WordsGrow(continuation);
  }

  lemma PostTracks(f: Fixture, r: Request, cap: nat, continuation: bool)
    requires r.sized && Tracked(f, continuation)
    ensures Tracked(Post(f, r, cap), continuation || PhaseOf(f, r) == CheckpointContinuation)
  {
    AcceptedOn(f.calls, Post(f, r, cap).calls[|f.calls|]);
    if PhaseOf(f, r) != Unexpected {
      WordFollows(f, r, continuation);
    } else {
      assert Accepted(f.calls) + [] == Accepted(f.calls);
    }
  }

  lemma {:induction false} AcceptedFollowsState(requests: seq<Request>, cap: nat) returns (continuation: bool)
    ensures Tracked(After(requests, cap), continuation)
  {
    continuation := false;
    if requests != [] {
      var r := requests[|requests| - 1];
      var f := After(requests[..|requests| - 1], cap);
      continuation := AcceptedFollowsState(requests[..|requests| - 1], cap);
      if r.sized {
        PostTracks(f, r, cap, continuation);
        continuation := continuation || PhaseOf(f, r) == CheckpointContinuation;
      }
    }
  }

  lemma WordIsPartOfJourney(state: State, stream: bool, continuation: bool)
    ensures WordAt(state, stream, continuation) <= Journey(stream, continuation)
  {
    var working := Working(stream, continuation);
    assert working <= Journey(stream, continuation);
  }

  /** Whatever is requested, the accepted phases are an initial part of one journey, so
      each phase is accepted at most once and in its order. */
  lemma AcceptedIsPartOfJourney(requests: seq<Request>, cap: nat)
    ensures exists stream, continuation :: Accepted(After(requests, cap).calls) <= Journey(stream, continuation)
  {
    var f := After(requests, cap);
    var continuation := AcceptedFollowsState(requests, cap);
    WordIsPartOfJourney(f.state, f.workResponses > 0, continuation);
  }

  /** The request that gets a phase accepted. */
  function RequestFor(phase: Phase): Request {
    match phase
    case OperatorExtend => Request(true, true, true, false, true)
    case OperatorApply => Request(true, true, true, false, true)
    case OperatorFinal => Request(true, true, true, false, true)
    case CheckpointContinuation => Request(true, true, false, true, false)
    case _ => Request(true, true, false, false, false)
  }

  /** After the requests: the state, the number of work responses and the accepted phases. */
  ghost predicate Reaches(requests: seq<Request>, cap: nat, state: State, work: nat, word: seq<Phase>) {
    var f := After(requests, cap);
    f.state == state && f.workResponses == work && Accepted(f.calls) == word
  }

  lemma OneMore(requests: seq<Request>, cap: nat, state: State, work: nat, word: seq<Phase>, phase: Phase)
    requires Reaches(requests, cap, state, work, word)
    requires phase != Unexpected && PhaseOf(Fixture(state, work, []), RequestFor(phase)) == phase
    ensures Reaches(requests + [RequestFor(phase)], cap, Next(state, phase),
                    work + if phase == WorkStream || phase == CheckpointContinuation then 1 else 0, word + [phase])
  {
    var f := After(requests, cap);
    assert (requests + [RequestFor(phase)])[..|requests|] == requests;
    AcceptedOn(f.calls, Post(f, RequestFor(phase), cap).calls[|f.calls|]);
  }

  lemma EnrollmentIsAccepted(cap: nat)
    ensures Reaches([] + [RequestFor(Warmup)], cap, AtEnrollment, 0, [Warmup])
    ensures Reaches([] + [RequestFor(Warmup)] + [RequestFor(Enrollment)], cap, AtWork, 0, Working(false, false))
  {
    WordsGrow(false);
    assert Reaches([], cap, AtWarmup, 0, []);
    OneMore([], cap, AtWarmup, 0, [], Warmup);
    OneMore([] + [RequestFor(Warmup)], cap, AtEnrollment, 0, [Warmup], Enrollment);
  }

  lemma WorkIsAccepted(stream: bool, continuation: bool, cap: nat) returns (requests: seq<Request>, work: nat)
    requires continuation ==> stream
    ensures Reaches(requests, cap, AtWork, work, Working(stream, continuation))
  {
    WordsGrow(false);
    EnrollmentIsAccepted(cap);
    requests, work := [] + [RequestFor(Warmup)] + [RequestFor(Enrollment)], 0;
    if stream {
      OneMore(requests, cap, AtWork, 0, Working(false, false), WorkStream);
      requests, work := requests + [RequestFor(WorkStream)], 1;
      if continuation {
        OneMore(requests, cap, AtWork, 1, Working(true, false), CheckpointContinuation);
        requests, work := requests + [RequestFor(CheckpointContinuation)], 2;
      }
    }
  }

  lemma OperatorIsAccepted(before: seq<Request>, cap: nat, work: nat, word: seq<Phase>, state: State) returns (requests: seq<Request>)
    requires Reaches(before, cap, AtWork, work, word)
    requires state == AtOperatorApply || state == AtOperatorFinal || state == Done
    ensures Reaches(requests, cap, state, work,
                    if state == AtOperatorApply then word + [OperatorExtend]
                    else if state == AtOperatorFinal then word + [OperatorExtend] + [OperatorApply]
                    else word + [OperatorExtend] + [OperatorApply] + [OperatorFinal])
  {
    OneMore(before, cap, AtWork, work, word, OperatorExtend);
    requests := before + [RequestFor(OperatorExtend)];
    if state != AtOperatorApply {
      OneMore(requests, cap, AtOperatorApply, work, word + [OperatorExtend], OperatorApply);
      requests := requests + [RequestFor(OperatorApply)];
      if state == Done {
        OneMore(requests, cap, AtOperatorFinal, work, word + [OperatorExtend] + [OperatorApply], OperatorFinal);
        requests := requests + [RequestFor(OperatorFinal)];
      }
    }
  }

  /** And each initial part of a journey is what some requests get accepted. */
  lemma EveryPartIsAccepted(state: State, stream: bool, continuation: bool, cap: nat) returns (requests: seq<Request>)
    requires continuation ==> stream
    ensures var f := After(requests, cap);
      f.state == state && Accepted(f.calls) == WordAt(state, stream, continuation)
  {
    var work;
    if state == AtWarmup {
      requests := [];
    } else if state == AtEnrollment {
      EnrollmentIsAccepted(cap);
      requests := [] + [RequestFor(Warmup)];
    } else {
      requests, work := WorkIsAccepted(stream, continuation, cap);
      if state != AtWork {
        requests := OperatorIsAccepted(requests, cap, work, Working(stream, continuation), state);
      }
    }
  }

  // ---------------------------------------------------------------- the final count

  function Count(calls: seq<Call>, phase: Phase): nat {
    if calls == [] then 0
    else Count(calls[..|calls| - 1], phase) + if calls[|calls| - 1].phase == phase then 1 else 0
  }

  /** The checks at the end of the journey. */
  predicate FinalCheck(calls: seq<Call>, cap: nat, paginated: bool) {
    && |calls| <= cap
    && Count(calls, Warmup) == 1 && Count(calls, Enrollment) == 1 && Count(calls, WorkStream) == 1
    && Count(calls, OperatorExtend) == 1 && Count(calls, OperatorApply) == 1 && Count(calls, OperatorFinal) == 1
    && Count(calls, CheckpointContinuation) == if paginated then 1 else 0
  }

  /** Call `k` is the only one of this phase. */
  ghost predicate OnlyAt(calls: seq<Call>, k: int, phase: Phase) {
    0 <= k < |calls| && calls[k].phase == phase && forall j | 0 <= j < |calls| && j != k :: calls[j].phase != phase
  }

  ghost predicate OccursOnce(calls: seq<Call>, phase: Phase) {
    exists k :: OnlyAt(calls, k, phase)
  }

  ghost predicate NeverOccurs(calls: seq<Call>, phase: Phase) {
    forall k | 0 <= k < |calls| :: calls[k].phase != phase
  }

  lemma OneCallMore(calls: seq<Call>, phase: Phase)
    requires calls != []
    ensures var n := |calls| - 1;
      && (NeverOccurs(calls, phase) <==> calls[n].phase != phase && NeverOccurs(calls[..n], phase))
      && (OnlyAt(calls, n, phase) <==> calls[n].phase == phase && NeverOccurs(calls[..n], phase))
      && (forall k | k < n :: OnlyAt(calls, k, phase) ==> calls[n].phase != phase && OnlyAt(calls[..n], k, phase))
      && (calls[n].phase != phase ==> forall k | OnlyAt(calls[..n], k, phase) :: OnlyAt(calls, k, phase))
  {
    var n := |calls| - 1;
    assert forall k | 0 <= k < n :: calls[..n][k] == calls[k];
  }

  lemma {:induction false} CountIs(calls: seq<Call>, phase: Phase)
    ensures Count(calls, phase) == 0 <==> NeverOccurs(calls, phase)
    ensures Count(calls, phase) == 1 <==> OccursOnce(calls, phase)
  {
    if calls != [] {
      CountIs(calls[..|calls| - 1], phase);
      OneCallMore(calls, phase);
    }
  }

  /** What the final count asks of the calls, whatever they are: the cap was kept, each phase of
      the journey is there exactly once, and the continuation exactly if the journey has pages. */
  lemma FinalCheckIs(calls: seq<Call>, cap: nat, paginated: bool)
    ensures FinalCheck(calls, cap, paginated) <==>
              && |calls| <= cap
              && (forall phase | phase != Unexpected && phase != CheckpointContinuation :: OccursOnce(calls, phase))
              && if paginated then OccursOnce(calls, CheckpointContinuation) else NeverOccurs(calls, CheckpointContinuation)
  {
    forall phase ensures (Count(calls, phase) == 0 <==> NeverOccurs(calls, phase)) && (Count(calls, phase) == 1 <==> OccursOnce(calls, phase)) {
      CountIs(calls, phase);
    }
  }

  lemma {:induction false} CountAccepted(calls: seq<Call>, phase: Phase)
    requires phase != Unexpected
    ensures Count(calls, phase) == multiset(Accepted(calls))[phase]
  {
    if calls != [] {
      CountAccepted(calls[..|calls| - 1], phase);
    }
  }

  lemma CountInWorking(stream: bool, continuation: bool)
    ensures var counts := multiset(Working(stream, continuation));
      && counts[Warmup] == counts[Enrollment] == 1
      && counts[WorkStream] == (if stream then 1 else 0)
      && counts[CheckpointContinuation] == (if stream && continuation then 1 else 0)
      && counts[OperatorExtend] == counts[OperatorApply] == counts[OperatorFinal] == 0
  {
  }

  lemma CountInWord(state: State, stream: bool, continuation: bool)
    ensures var counts := multiset(WordAt(state, stream, continuation));
      && (counts[OperatorFinal] == if state == Done then 1 else 0)
      && (state == Done ==>
            && counts[Warmup] == counts[Enrollment] == counts[OperatorExtend] == counts[OperatorApply] == 1
            && counts[WorkStream] == (if stream then 1 else 0)
            && counts[CheckpointContinuation] == if stream && continuation then 1 else 0)
  {
    CountInWorking(stream, continuation);
  }

  /** The final count passes exactly when the request cap was kept and the accepted phases
      are the whole journey, with work, and with a checkpoint as the journey asks. */
  lemma FinalCheckMeansJourney(requests: seq<Request>, cap: nat, paginated: bool)
    ensures var f := After(requests, cap);
      FinalCheck(f.calls, cap, paginated) <==>
        |f.calls| <= cap && f.state == Done && Accepted(f.calls) == Journey(true, paginated)
  {
    var f := After(requests, cap);
    var continuation := AcceptedFollowsState(requests, cap);
    CountInWord(f.state, f.workResponses > 0, continuation);
    CountInWord(Done, true, paginated);
    CountAccepted(f.calls, Warmup);
    CountAccepted(f.calls, Enrollment);
    CountAccepted(f.calls, WorkStream);
    CountAccepted(f.calls, CheckpointContinuation);
    CountAccepted(f.calls, OperatorExtend);
    CountAccepted(f.calls, OperatorApply);
    CountAccepted(f.calls, OperatorFinal);
  }

  ghost predicate Numbered(calls: seq<Call>, cap: nat) {
    forall k | 0 <= k < |calls| ::
      calls[k].number == k + 1 && calls[k].response == Answer(k + 1, cap, calls[k].phase, calls[k].json)
  }

  lemma {:induction false} CallsAreNumbered(requests: seq<Request>, cap: nat)
    ensures Numbered(After(requests, cap).calls, cap)
  {
    if requests != [] {
      CallsAreNumbered(requests[..|requests| - 1], cap);
    }
  }

  /** When the final count passes, every accepted request that was well formed was served. */
  lemma FinalCheckMeansServed(requests: seq<Request>, cap: nat, paginated: bool)
    requires FinalCheck(After(requests, cap).calls, cap, paginated)
    ensures var calls := After(requests, cap).calls;
      forall k | 0 <= k < |calls| :: calls[k].response == Served <==> calls[k].json && calls[k].phase != Unexpected
  {
    CallsAreNumbered(requests, cap);
  }
}
