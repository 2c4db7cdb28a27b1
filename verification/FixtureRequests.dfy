/** Which request of the native journey fixture gets which phase, told by the requests before it
    and not by the state that the fixture keeps. */
module FixtureRequests {
  import opened FixturePhases

  /** The requests that are not too large, which are those that are counted. */
  function Counted(requests: seq<Request>): seq<Request> {
    if requests == [] then []
    else
      var last := requests[|requests| - 1];
      Counted(requests[..|requests| - 1]) + if last.sized then [last] else []
  }

  /** How many are no operator replies. */
  function Plain(requests: seq<Request>): nat {
    if requests == [] then 0
    else Plain(requests[..|requests| - 1]) + if requests[|requests| - 1].operatorReply then 0 else 1
  }

  /** How many are operator replies after the operator's start, and come after warmup and
      enrollment, that is after two requests that are none. */
  function Replies(requests: seq<Request>): nat {
    if requests == [] then 0
    else
      var before, last := requests[..|requests| - 1], requests[|requests| - 1];
      Replies(before) + if last.operatorReply && last.operatorStarted && Plain(before) >= 2 then 1 else 0
  }

  /** The phase of a request, by the requests before it. */
  ghost predicate PhaseFits(phase: Phase, before: seq<Request>, r: Request) {
    var plain, replies := Plain(before), Replies(before);
    var reply := r.operatorReply && r.operatorStarted && plain >= 2;
    && (phase == Warmup <==> !r.operatorReply && plain == 0)
    && (phase == Enrollment <==> !r.operatorReply && plain == 1)
    && (phase == WorkStream <==> !r.operatorReply && plain == 2 && replies == 0)
    && (phase == CheckpointContinuation <==> !r.operatorReply && plain == 3 && replies == 0 && r.checkpointSteer)
    && (phase == OperatorExtend <==> reply && replies == 0)
    && (phase == OperatorApply <==> reply && replies == 1)
    && (phase == OperatorFinal <==> reply && replies == 2)
    && (phase == Unexpected <==>
          if r.operatorReply then !r.operatorStarted || plain < 2 || replies > 2
          else plain >= 2 && (replies > 0 || plain > 3 || (plain == 3 && !r.checkpointSteer)))
  }

  /** The answer to a request: the cap counts all calls up to this one. */
  ghost predicate AnswerFits(call: Call, cap: nat, r: Request) {
    && call.json == r.json
    && (call.response == Broken <==> !r.json)
    && (call.response == OverCap <==> r.json && call.number > cap)
    && (call.response == Conflict <==> r.json && call.number <= cap && call.phase == Unexpected)
    && (call.response == Served <==> r.json && call.number <= cap && call.phase != Unexpected)
  }

  /** Each call is that of its own request. */
  ghost predicate CallsFit(calls: seq<Call>, counted: seq<Request>, cap: nat) {
    && |calls| == |counted|
    && forall k | 0 <= k < |calls| ::
         calls[k].number == k + 1 && PhaseFits(calls[k].phase, counted[..k], counted[k]) && AnswerFits(calls[k], cap, counted[k])
  }

  /** The state that is kept, by the requests so far. */
  ghost predicate StateFits(f: Fixture, counted: seq<Request>) {
    var plain, replies := Plain(counted), Replies(counted);
    && (replies > 0 ==> plain >= 2)
    && f.state == (if plain == 0 then AtWarmup else if plain == 1 then AtEnrollment else if replies == 0 then AtWork
                   else if replies == 1 then AtOperatorApply else if replies == 2 then AtOperatorFinal else Done)
    && (f.state == AtWork ==> f.workResponses == plain - 2)
    && (plain < 2 ==> f.workResponses == 0)
  }

  lemma CountedOn(counted: seq<Request>, r: Request)
    ensures Plain(counted + [r]) == Plain(counted) + if r.operatorReply then 0 else 1
    ensures Replies(counted + [r]) ==
              Replies(counted) + if r.operatorReply && r.operatorStarted && Plain(counted) >= 2 then 1 else 0
  {
    assert (counted + [r])[..|counted|] == counted;
  }

  lemma OneMoreCall(f: Fixture, counted: seq<Request>, r: Request, cap: nat)
    requires r.sized && StateFits(f, counted) && CallsFit(f.calls, counted, cap)
    ensures StateFits(Post(f, r, cap), counted + [r]) && CallsFit(Post(f, r, cap).calls, counted + [r], cap)
  {
    CountedOn(counted, r);
    var calls, all := Post(f, r, cap).calls, counted + [r];
    forall k | 0 <= k < |calls|
      ensures calls[k].number == k + 1 && PhaseFits(calls[k].phase, all[..k], all[k]) && AnswerFits(calls[k], cap, all[k])
    {
      assert all[..k] == counted[..k];
      if k == |counted| {
        assert all[..k] == counted;
      }
    }
  }

  lemma {:induction false} CallsAreOfRequests(requests: seq<Request>, cap: nat)
    ensures StateFits(After(requests, cap), Counted(requests)) && CallsFit(After(requests, cap).calls, Counted(requests), cap)
  {
    if requests != [] {
      var before, r := requests[..|requests| - 1], requests[|requests| - 1];
      CallsAreOfRequests(before, cap);
      if r.sized {
        OneMoreCall(After(before, cap), Counted(before), r, cap);
      } else {
        assert Counted(requests) == Counted(before) + [] == Counted(before);
      }
    }
  }

  /** Over every request sequence there is one call for each request that is not too large, in
      their order, and its phase and its answer are those that fit the request. */
  lemma EveryRequestGetsItsPhase(requests: seq<Request>, cap: nat)
    ensures CallsFit(After(requests, cap).calls, Counted(requests), cap)
  {
    CallsAreOfRequests(requests, cap);
  }
}
