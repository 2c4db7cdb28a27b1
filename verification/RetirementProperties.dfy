/** What a crash, a pass and an approved plan mean for the worktree. */
module RetirementProperties {
  import opened Values
  import opened Observation
  import opened Inspection
  import opened InspectionProperties
  import Registrations
  import opened Retirement

  // ------------------------------------------------------------------------ crashes

  /** The receipt on disk: the last one that was written through since `base`. */
  function Durable(trace: seq<Event>, base: nat): Option<Payload> {
    if |trace| <= base then None
    else
      var last := trace[|trace| - 1];
      if last.Saved? && last.done.Ok? then Some(last.receipt) else Durable(trace[..|trace| - 1], base)
  }

  ghost predicate Issued(trace: seq<Event>, base: nat) {
    exists k | base <= k < |trace| :: trace[k].Removed?
  }

  lemma {:induction false} DurableSinceIssue(world: World, trace: seq<Event>, base: nat, plan: PlanFile,
                                             output: string, n: nat)
    requires EffectHistory(world, trace, base, plan, output)
    requires base + 2 <= n <= |trace|
    ensures Durable(trace[..n], base) ==
              if n == |trace| && n > base + 3 && trace[n - 1].Saved? && trace[n - 1].done.Ok? then Some(trace[n - 1].receipt)
              else if trace[base + 1].done.Ok? then Some(Pending(plan, plan.payload.entries[0])) else None
    decreases n
  {
    var p := trace[..n];
    assert p[..n - 1] == trace[..n - 1];
    if n == base + 2 {
      if trace[base + 1].done.Err? {
        assert Durable(trace[..base + 1], base) == None by {
          assert trace[..base + 1][..base] == trace[..base];
        }
      }
    } else {
      DurableSinceIssue(world, trace, base, plan, output, n - 1);
    }
  }

  /** Wherever the run is cut off: once the removal was issued, the receipt file was newly
      created by this very run, and what it says on disk is FAIL and unknown, unless zero
      exit, no registration, no path and the planned custody head were all read back. */
  lemma CrashLeavesTruth(world: World, trace: seq<Event>, base: nat, plan: PlanFile, output: string, n: nat)
    requires EffectHistory(world, trace, base, plan, output)
    requires n <= |trace| && Issued(trace[..n], base)
    ensures base + 2 < n && trace[base] == Reserved(output, Ok(()))
    ensures Durable(trace[..n], base).Some?
    ensures var receipt := Durable(trace[..n], base).value;
      ClaimsNothing(receipt) || ReadBack(world, trace[..n], base + 2, plan.payload.entries[0])
  {
    var k :| base <= k < n && trace[..n][k].Removed?;
    assert trace[k].Removed?;
    DurableSinceIssue(world, trace, base, plan, output, n);
    assert trace[base].done.value == ();
    if n == |trace| {
      assert trace[..n] == trace;
    }
  }

  // ------------------------------------------------------------- what the receipts say

  /** The receipt is of the planned entry, in a result of the planned repository. */
  predicate ReceiptOf(receipt: Payload, plan: PlanFile, entry: Entry) {
    && receipt.kind == ResultKind && receipt.schema == plan.payload.schema
    && receipt.repository == plan.payload.repository && receipt.references == plan.payload.references
    && |receipt.entries| == 1
    && var told := receipt.entries[0];
    && told.id == entry.id && told.path == entry.path && told.head == entry.head && told.custody == entry.custody
    && told.custodyHead == entry.custodyHead && told.present == entry.present && told.action == entry.action
    && told.review == entry.review && told.processes == entry.processes && told.owner == entry.owner
    && told.state == entry.state && told.locked == entry.locked
  }

  /** The receipt before the removal decides nothing and waits for the readback. */
  lemma PendingTells(plan: PlanFile, entry: Entry)
    ensures var receipt := Pending(plan, entry);
      && ReceiptOf(receipt, plan, entry) && receipt.status == FAIL
      && receipt.entries[0].disposition == Undecided && receipt.entries[0].reasons == [PendingReadback]
  {
  }

  /** The receipt after it passes exactly a confirmed readback, and then says gone of a target
      that was there and pruned of one that was not; else it tells why nothing is decided. */
  lemma OutcomeTells(plan: PlanFile, entry: Entry, verified: Result<bool>)
    ensures var receipt := Outcome(plan, entry, verified);
      && ReceiptOf(receipt, plan, entry)
      && (receipt.status == PASS <==> verified == Ok(true)) && (receipt.status == FAIL <==> verified != Ok(true))
      && var told := receipt.entries[0];
      && (told.disposition == Gone <==> verified == Ok(true) && entry.present)
      && (told.disposition == Pruned <==> verified == Ok(true) && !entry.present)
      && (told.disposition == Undecided <==> verified != Ok(true))
      && told.reasons == (if verified.Err? then [OutcomeUnknown] else if verified.value then [] else [EffectUnverified])
      && (verified == Ok(true) ==> told.nextAction == RetainCustodyRef)
  {
  }

  /** The readback confirms a removal exactly when exit zero, no registration, no path and the
      custody ref at the planned head were read, and fails exactly when it could not be made. */
  lemma ConfirmedIs(world: World, removed: seq<Event>, entry: Entry, code: Result<int>)
    ensures var r := Confirmed(world, removed, entry, code);
      var listed := removed + [Looked(Worktrees)];
      var resolved := listed + [Looked(Revision(entry.custody))];
      && (r.Err? <==> code.Err? || world(removed).porcelain.Err? || world(listed).revisions(entry.custody).Err?)
      && (r == Ok(true) <==>
            && code == Ok(0) && world(removed).porcelain.Ok?
            && (forall row | row in Registrations.Parse(world(removed).porcelain.value) ::
                  !("worktree" in row && row["worktree"] == entry.path))
            && world(listed).revisions(entry.custody) == Ok(entry.head) && !world(resolved).present(entry.path))
  {
  }

  /** A plan is a plan of this repository, with the one entry that was observed, and passes
      exactly if that may go. */
  lemma PlanTells(repo: string, references: string, entry: Entry)
    ensures var payload := PlanPayload(repo, references, entry);
      && payload.schema == CleanupV1 && payload.kind == PlanKind && payload.repository == repo
      && payload.references == references && payload.entries == [entry]
      && (payload.status == PASS <==> entry.disposition == Eligible) && (payload.status == HELD <==> entry.disposition != Eligible)
  {
  }

  // ------------------------------------------------------------------------ the lock

  lemma LockBefore(world: World, identify: string -> string, start: nat, trace: seq<Event>, base: nat, plan: PlanFile, output: string)
    requires UnderLock(world, identify, trace, start, base, plan, output)
    ensures trace[start].Looked? && trace[start + 1].Looked? && trace[start + 2] == Locked(Ok(()))
    ensures var entry := plan.payload.entries[0];
      ObservedBetween(world, identify, trace, start + 3, base, AimOf(plan.payload, entry), entry)
  {
  }

  /** The removal at `k` is of the planned target, and follows the pending receipt and, before
      the checks were over, the lock, which is the only one. */
  ghost predicate IssuedInOrder(trace: seq<Event>, start: nat, base: nat, plan: PlanFile, k: nat) {
    && |plan.payload.entries| == 1 && start + 3 <= base < base + 2 == k < |trace|
    && trace[k].Removed? && trace[k].target == plan.payload.entries[0].path
    && trace[base + 1] == Saved(Pending(plan, plan.payload.entries[0]), Ok(()))
    && trace[start + 2] == Locked(Ok(())) && forall i | start <= i < |trace| :: trace[i].Locked? <==> i == start + 2
  }

  lemma RemovalInOrder(world: World, start: nat, trace: seq<Event>, base: nat, plan: PlanFile, resolved: string, k: nat)
    requires start + 3 <= base <= |trace|
    requires trace[start].Looked? && trace[start + 1].Looked? && trace[start + 2] == Locked(Ok(()))
    requires forall i | start + 2 < i < base :: trace[i].Looked?
    requires EffectHistory(world, trace, base, plan, resolved)
    requires start <= k < |trace| && trace[k].Removed?
    ensures IssuedInOrder(trace, start, base, plan, k)
  {
    assert trace[base + 1].done.value == ();
  }

  /** In whatever world the run takes place: a removal is issued once and for the one planned
      target, after the lock was granted, all there is to read of the target was read anew
      under the lock and spoke for retiring it, and the receipt was written through; and no
      second lock is ever taken. */
  lemma RemovalUnderLock(world: World, identify: string -> string, digest: Payload -> string, start: nat, trace: seq<Event>,
                         base: nat, plan: PlanFile, approved: string, output: string, resolved: string, k: nat)
    requires UnderLock(world, identify, trace, start, base, plan, output) && Authorised(digest, plan, approved)
    requires EffectHistory(world, trace, base, plan, resolved)
    requires start <= k < |trace| && trace[k].Removed?
    ensures IssuedInOrder(trace, start, base, plan, k)
    ensures plan.payload.schema == CleanupV1 && plan.payload.kind == PlanKind && digest(plan.payload) == plan.planId == approved
    ensures SpokenFor(world, trace, start + 3, base, AimOf(plan.payload, plan.payload.entries[0]), plan.payload.entries[0])
  {
    var entry := plan.payload.entries[0];
    LockBefore(world, identify, start, trace, base, plan, output);
    EligibleReadings(world, identify, trace, start + 3, base, AimOf(plan.payload, entry), entry);
    RemovalInOrder(world, start, trace, base, plan, resolved, k);
  }

  // -------------------------------------------------------------------------- a pass

  /** Nothing but the removal itself changes what is read of the target. */
  ghost predicate Undisturbed(world: World, aim: Aim) {
    forall trace, e: Event {:trigger world(trace + [e])} | !e.Removed? :: Alike(world(trace + [e]), world(trace), aim)
  }

  lemma AlikeOn(a: Snapshot, b: Snapshot, c: Snapshot, aim: Aim)
    requires Alike(a, b, aim) && Alike(b, c, aim)
    ensures Alike(a, c, aim)
  {
    forall pid, surface ensures SameSurface(a, c, pid, surface, aim.target) {
      assert SameSurface(a, b, pid, surface, aim.target) && SameSurface(b, c, pid, surface, aim.target);
    }
  }

  lemma {:induction false} SameWorld(world: World, aim: Aim, trace: seq<Event>, from: nat)
    requires Undisturbed(world, aim)
    requires from <= |trace| && forall i | from <= i < |trace| :: !trace[i].Removed?
    ensures Alike(world(trace), world(trace[..from]), aim)
    decreases |trace|
  {
    if from == |trace| {
      assert trace[..from] == trace;
    } else {
      var shorter := trace[..|trace| - 1];
      assert trace == shorter + [trace[|trace| - 1]];
      assert shorter[..from] == trace[..from];
      SameWorld(world, aim, shorter, from);
      AlikeOn(world(trace), world(shorter), world(trace[..from]), aim);
    }
  }

  lemma UndisturbedIsSteady(world: World, aim: Aim, before: seq<Event>)
    requires Undisturbed(world, aim)
    ensures Steady(world, before, aim)
  {
    forall after | Quiet(before, after) ensures Alike(world(after), world(before), aim) {
      SameWorld(world, aim, after, |before|);
      assert after[..|before|] == before;
    }
  }

  /** Without outside interference a run that exits with 0 has left the target unregistered
      and absent, with the custody ref still at the planned head. */
  lemma PassMeansRetired(world: World, trace: seq<Event>, base: nat, plan: PlanFile, output: string)
    requires |plan.payload.entries| == 1 && Undisturbed(world, AimOf(plan.payload, plan.payload.entries[0]))
    requires EffectHistory(world, trace, base, plan, output)
    requires PassWritten(trace, base, plan)
    ensures var s := world(trace);
      var entry := plan.payload.entries[0];
      && s.porcelain.Ok? && Registered(s.porcelain.value, entry.path) == []
      && !s.present(entry.path)
      && s.revisions(entry.custody) == Ok(entry.head)
  {
    var aim := AimOf(plan.payload, plan.payload.entries[0]);
    SameWorld(world, aim, trace, base + 3);
    SameWorld(world, aim, trace, base + 4);
    SameWorld(world, aim, trace, base + 5);
  }

  // ---------------------------------------------------------------------- plan and apply

  /** Under an injective digest no plan but the approved one can ever be applied. */
  lemma AlteredPlanIsHeld(digest: Payload -> string, approved: Payload, plan: PlanFile)
    requires forall a, b :: digest(a) == digest(b) ==> a == b
    requires plan.payload != approved
    ensures !Authorised(digest, plan, digest(approved))
  {
    assert digest(plan.payload) != digest(approved);
  }

  lemma ObservedEntry(s: Snapshot, identify: string -> string, aim: Aim)
    requires Observed(s, identify, aim).Ok?
    ensures var entry := Observed(s, identify, aim).value;
      && entry.path == aim.target && entry.custody == aim.custody
      && (entry.disposition == Eligible <==> Retirable(entry))
      && (entry.action == Retain || entry.action == Remove || entry.action == Prune)
      && (entry.action == Retain <==> !Retirable(entry))
  {
    var entry := Observed(s, identify, aim).value;
    EligibleIffRetirable(entry.id, aim.target, aim.custody, entry.head, entry.custodyHead, entry.present, entry.state,
                         entry.locked, entry.review, entry.processes);
  }

  function PlanOf(digest: Payload -> string, aim: Aim, entry: Entry): PlanFile {
    var payload := PlanPayload(aim.repo, aim.references, entry);
    PlanFile(payload, digest(payload))
  }

  lemma PlanIsAuthorised(digest: Payload -> string, repo: string, references: string, entry: Entry)
    ensures var payload := PlanPayload(repo, references, entry);
      Authorised(digest, PlanFile(payload, digest(payload)), digest(payload)) <==>
        entry.disposition == Eligible && (entry.action == Remove || entry.action == Prune)
  {
  }

  /** A plan made of what the host shows holds on that host as it is, if it makes the
      target eligible and the receipt goes outside; an entry that is retained never does. */
  lemma PlannedHolds(s: Snapshot, identify: string -> string, digest: Payload -> string, aim: Aim, output: string)
    requires Observed(s, identify, aim).Ok?
    ensures var plan := PlanOf(digest, aim, Observed(s, identify, aim).value);
      PlanHolds(s, identify, digest, plan, plan.planId, output) <==> Ready(s, identify, aim, output)
  {
    ObservedEntry(s, identify, aim);
    var entry := Observed(s, identify, aim).value;
    PlanIsAuthorised(digest, aim.repo, aim.references, entry);
    assert AimOf(PlanPayload(aim.repo, aim.references, entry), entry) == aim;
  }

  /** The target may go, and the receipt has somewhere to go. */
  predicate Ready(s: Snapshot, identify: string -> string, aim: Aim, output: string)
    requires Observed(s, identify, aim).Ok?
  {
    && Retirable(Observed(s, identify, aim).value)
    && External(s.resolve(output), aim.repo, aim.target) && s.common.Ok?
  }

  lemma PlanHoldsAlike(a: Snapshot, b: Snapshot, identify: string -> string, digest: Payload -> string, plan: PlanFile,
                       approved: string, output: string)
    requires |plan.payload.entries| == 1 && Alike(a, b, AimOf(plan.payload, plan.payload.entries[0]))
    ensures PlanHolds(a, identify, digest, plan, approved, output) <==> PlanHolds(b, identify, digest, plan, approved, output)
  {
    ObservedAlike(a, b, identify, AimOf(plan.payload, plan.payload.entries[0]));
  }

  lemma IssuedAfterChecks(world: World, start: seq<Event>, made: seq<Event>, trace: seq<Event>, base: nat,
                          plan: PlanFile, output: string)
    requires start <= made <= trace && |made| <= base <= |trace|
    requires forall k | |start| <= k < |made| :: !made[k].Removed?
    requires Quiet(made, trace[..base])
    requires |trace| > base ==> EffectHistory(world, trace, base, plan, output)
    ensures Issued(trace, |start|) <==> |trace| > base + 2
  {
    if |trace| > base + 2 {
      assert trace[base + 2].Removed?;
    } else {
      forall k | |start| <= k < |trace| ensures !trace[k].Removed? {
        if k < |made| {
          assert trace[k] == made[k];
        } else if k < base {
          assert trace[..base][k] == trace[k];
        }
      }
    }
  }

  lemma HoldsIffReady(s: Snapshot, now: Snapshot, identify: string -> string, digest: Payload -> string, aim: Aim, output: string)
    requires Observed(s, identify, aim).Ok? && Alike(now, s, aim)
    ensures var plan := PlanOf(digest, aim, Observed(s, identify, aim).value);
      && |plan.payload.entries| == 1 && AimOf(plan.payload, plan.payload.entries[0]) == aim
      && (PlanHolds(now, identify, digest, plan, plan.planId, output) <==> Ready(s, identify, aim, output))
  {
    var plan := PlanOf(digest, aim, Observed(s, identify, aim).value);
    ObservedEntry(s, identify, aim);
    PlannedHolds(s, identify, digest, aim, output);
    PlanHoldsAlike(now, s, identify, digest, plan, plan.planId, output);
  }

  /** The plan is applied at once, approved as it is. */
  method ApplyPlanned(h: Host, plan: PlanFile, output: string) returns (r: Result<int>, ghost base: nat, ghost resolved: string)
    requires |plan.payload.entries| == 1 && Undisturbed(h.world, AimOf(plan.payload, plan.payload.entries[0]))
    requires LockFree(h) && Writable(h)
    modifies h`trace
    ensures |old(h.trace)| <= base <= |h.trace| && old(h.trace) <= h.trace && Quiet(old(h.trace), h.trace[..base])
    ensures |h.trace| > base ==> EffectHistory(h.world, h.trace, base, plan, resolved)
    ensures |h.trace| > base + 2 <==>
              PlanHolds(h.world(old(h.trace)), h.identify, h.digest, plan, plan.planId, output)
  {
    UndisturbedIsSteady(h.world, AimOf(plan.payload, plan.payload.entries[0]), h.trace);
    ghost var passed;
    r, base, resolved, passed := Apply(h, plan, plan.planId, output);
  }

  /** A plan made on an undisturbed host is that of its state and leaves the target as it is. */
  method PlanNow(h: Host, aim: Aim, output: string) returns (planned: Result<PlanFile>)
    requires Undisturbed(h.world, aim) && Creatable(h)
    modifies h`trace
    ensures OnlyReserves(old(h.trace), h.trace, output)
    ensures Alike(h.world(h.trace), h.world(old(h.trace)), aim)
    ensures planned.Ok? <==> Plannable(h.world(old(h.trace)), h.identify, aim, output)
    ensures planned.Ok? ==>
              planned.value == PlanOf(h.digest, aim, Observed(h.world(old(h.trace)), h.identify, aim).value)
  {
    ghost var start := h.trace;
    UndisturbedIsSteady(h.world, aim, start);
    planned := MakePlan(h, aim, output);
    SameWorld(h.world, aim, h.trace, |start|);
    assert h.trace[..|start|] == start;
  }

  /** Plan, approval and apply in a row on an undisturbed host: the removal is issued
      exactly when the plan can be made, the target is retirable and the receipt goes outside. */
  method PlanThenApply(h: Host, aim: Aim, planOutput: string, output: string) returns (r: Result<int>)
    requires Undisturbed(h.world, aim) && LockFree(h)
    requires Writable(h)
    modifies h`trace
    ensures Issued(h.trace, |old(h.trace)|) <==>
              && Plannable(h.world(old(h.trace)), h.identify, aim, planOutput)
              && Ready(h.world(old(h.trace)), h.identify, aim, output)
  {
    ghost var start := h.trace;
    var planned := PlanNow(h, aim, planOutput);
    ghost var made := h.trace;
    var plan :- planned;
    HoldsIffReady(h.world(start), h.world(made), h.identify, h.digest, aim, output);
    ghost var base, resolved;
    r, base, resolved := ApplyPlanned(h, plan, output);
    IssuedAfterChecks(h.world, start, made, h.trace, base, plan, resolved);
  }

  // ------------------------------------------------------------------- a removal that works

  /** What the removal is for: the target is neither registered nor there, and the custody ref
      is where it was. */
  ghost predicate Retired(s: Snapshot, aim: Aim, head: string) {
    && s.porcelain.Ok? && Registered(s.porcelain.value, aim.target) == []
    && !s.present(aim.target) && s.revisions(aim.custody) == Ok(head)
  }

  /** A removal exits with 0 and does what it is for. */
  ghost predicate Removes(world: World, remove: seq<Event> -> Result<int>, aim: Aim) {
    forall trace {:trigger remove(trace)} ::
      && remove(trace) == Ok(0)
      && forall head | world(trace).revisions(aim.custody) == Ok(head) :: Retired(world(trace + [Removed(aim.target, Ok(0))]), aim, head)
  }

  /** Then the readback confirms it. */
  lemma RemovalConfirmed(world: World, remove: seq<Event> -> Result<int>, aim: Aim, before: seq<Event>, entry: Entry)
    requires Undisturbed(world, aim) && Removes(world, remove, aim)
    requires entry.path == aim.target && entry.custody == aim.custody && world(before).revisions(aim.custody) == Ok(entry.head)
    ensures Confirmed(world, before + [Removed(aim.target, remove(before))], entry, remove(before)) == Ok(true)
  {
    assert remove(before) == Ok(0);
    var removed := before + [Removed(aim.target, Ok(0))];
    var listed := removed + [Looked(Worktrees)];
    var resolved := listed + [Looked(Revision(aim.custody))];
    assert Retired(world(removed), aim, entry.head);
    assert Alike(world(listed), world(removed), aim) && Alike(world(resolved), world(listed), aim);
  }

  lemma HeadKept(world: World, aim: Aim, start: seq<Event>, before: seq<Event>, head: string)
    requires Undisturbed(world, aim) && start <= before
    requires forall i | |start| <= i < |before| :: !before[i].Removed?
    requires world(start).revisions(aim.custody) == Ok(head)
    ensures world(before).revisions(aim.custody) == Ok(head)
  {
    SameWorld(world, aim, before, |start|);
    assert before[..|start|] == start;
  }

  lemma NothingRemovedBefore(world: World, start: seq<Event>, trace: seq<Event>, base: nat, plan: PlanFile, output: string)
    requires |start| <= base && base + 2 <= |trace| && start <= trace && Quiet(start, trace[..base])
    requires EffectHistory(world, trace, base, plan, output)
    ensures forall i | |start| <= i < base + 2 :: !trace[i].Removed?
  {
    assert forall i | |start| <= i < base :: trace[i] == trace[..base][i];
  }

  lemma HeadAtRemoval(world: World, aim: Aim, start: seq<Event>, trace: seq<Event>, base: nat, plan: PlanFile, output: string,
                      head: string)
    requires Undisturbed(world, aim)
    requires |start| <= base && base + 2 <= |trace| && start <= trace && Quiet(start, trace[..base])
    requires EffectHistory(world, trace, base, plan, output)
    requires world(start).revisions(aim.custody) == Ok(head)
    ensures world(trace[..base + 2]).revisions(aim.custody) == Ok(head)
  {
    NothingRemovedBefore(world, start, trace, base, plan, output);
    HeadKept(world, aim, start, trace[..base + 2], head);
  }

  lemma OneMore(trace: seq<Event>, n: nat)
    requires n < |trace|
    ensures trace[..n + 1] == trace[..n] + [trace[n]]
  {
  }

  lemma AppliedIsConfirmed(world: World, remove: seq<Event> -> Result<int>, aim: Aim, start: seq<Event>, trace: seq<Event>,
                           base: nat, plan: PlanFile, output: string, r: Result<int>)
    requires Undisturbed(world, aim) && Removes(world, remove, aim)
    requires |start| <= base <= |trace| && start <= trace && Quiet(start, trace[..base])
    requires EffectHistory(world, trace, base, plan, output) && Concluded(world, remove, trace, base, plan, r)
    requires AimOf(plan.payload, plan.payload.entries[0]) == aim
    requires world(start).revisions(aim.custody) == Ok(plan.payload.entries[0].head)
    ensures Closed(trace, base, plan, Ok(true), r)
  {
    var entry := plan.payload.entries[0];
    HeadAtRemoval(world, aim, start, trace, base, plan, output, entry.head);
    RemovalConfirmed(world, remove, aim, trace[..base + 2], entry);
    OneMore(trace, base + 2);
  }

  lemma ReadyMeansHead(s: Snapshot, identify: string -> string, aim: Aim, output: string)
    requires Observed(s, identify, aim).Ok? && Ready(s, identify, aim, output)
    ensures s.revisions(aim.custody) == Ok(Observed(s, identify, aim).value.head)
  {
  }

  /** From every state in which the target can be planned and may go: if nothing else changes
      what is read of it and the removal works, plan, approval and apply exit with 0, and the
      target is gone with its custody ref in place. */
  method RetireNow(h: Host, aim: Aim, planOutput: string, output: string) returns (r: Result<int>)
    requires Undisturbed(h.world, aim) && LockFree(h) && Writable(h) && Removes(h.world, h.remove, aim)
    requires Plannable(h.world(h.trace), h.identify, aim, planOutput) && Ready(h.world(h.trace), h.identify, aim, output)
    modifies h`trace
    ensures r == Ok(0)
    ensures Retired(h.world(h.trace), aim, Observed(h.world(old(h.trace)), h.identify, aim).value.head)
  {
    ghost var s := h.world(h.trace);
    var planned := PlanNow(h, aim, planOutput);
    ghost var made := h.trace;
    var plan := planned.value;
    HoldsIffReady(s, h.world(made), h.identify, h.digest, aim, output);
    ReadyMeansHead(s, h.identify, aim, output);
    UndisturbedIsSteady(h.world, aim, made);
    ghost var base, resolved, passed;
    r, base, resolved, passed := Apply(h, plan, plan.planId, output);
    AppliedIsConfirmed(h.world, h.remove, aim, made, h.trace, base, plan, resolved, r);
    PassMeansRetired(h.world, h.trace, base, plan, resolved);
  }
}
