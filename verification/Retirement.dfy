/** The plan/approve/apply protocol of scripts/cleanup_worktrees.py. */
module Retirement {
  import opened Values
  import opened Observation
  import opened Inspection

  datatype PlanFile = PlanFile(payload: Payload, planId: string)

  // ------------------------------------------------------------------------- plan

  /** `external_output`: the file lies outside the source and the target. */
  predicate External(output: string, repo: string, target: string) {
    !Within(output, repo) && !Within(output, target)
  }

  /** It is neither of the two, and goes on from neither behind a slash. */
  lemma ExternalIs(output: string, repo: string, target: string)
    ensures External(output, repo, target) <==>
              && output != repo && output != target
              && forall rest :: output != repo + "/" + rest && output != target + "/" + rest
  {
    WithinIs(output, repo);
    WithinIs(output, target);
  }

  function PlanPayload(repo: string, references: string, entry: Entry): Payload {
    Payload(CleanupV1, PlanKind, repo, references, [entry], if entry.disposition == Eligible then PASS else HELD)
  }

  function AimOf(payload: Payload, entry: Entry): Aim {
    Aim(payload.repository, entry.path, entry.custody, payload.references)
  }

  /** A plan can be made of what the host shows. */
  predicate Plannable(s: Snapshot, identify: string -> string, aim: Aim, output: string) {
    && s.toplevel == Ok(aim.repo)
    && Observed(s, identify, aim).Ok?
    && External(s.resolve(output), aim.repo, aim.target)
  }

  /** What a plan is made of, in every world. */
  function PlanSeen(h: Host, trace: seq<Event>, aim: Aim): Seen<Result<Entry>> {
    var looked := After(trace, Toplevel);
    match h.world(trace).toplevel
    case Err(e) => Seen(looked, Err(e))
    case Ok(top) => if top != aim.repo then Seen(looked, Err(Refused)) else ObservationSeen(h.world, h.identify, looked, aim)
  }

  /** The plan branch of `main`, in every world, up to the writing of the new plan file. */
  function PlanFileSeen(h: Host, trace: seq<Event>, aim: Aim, output: string): Seen<Result<PlanFile>> {
    var seen := PlanSeen(h, trace, aim);
    match seen.value
    case Err(e) => Seen(seen.trace, Err(e))
    case Ok(entry) =>
      var looked := After(seen.trace, Resolve(output));
      if !External(h.world(seen.trace).resolve(output), aim.repo, aim.target) then Seen(looked, Err(Refused))
      else
        var payload := PlanPayload(aim.repo, aim.references, entry);
        var done := h.reserve(looked);
        Seen(looked + [Reserved(output, done)], if done.Ok? then Ok(PlanFile(payload, h.digest(payload))) else Err(done.error))
  }

  method ObserveForPlan(h: Host, aim: Aim) returns (r: Result<Entry>)
    modifies h`trace
    ensures Seen(h.trace, r) == PlanSeen(h, old(h.trace), aim)
  {
    var s := h.Look(Toplevel);
    var top :- s.toplevel;
    :- Require(top == aim.repo);
    r := Observe(h, aim);
  }

  /** A file can always be created. */
  ghost predicate Creatable(h: Host) {
    forall trace :: h.reserve(trace).Ok?
  }

  /** What a plan is, on a host that had the history `start` and does not change meanwhile:
      that of the observation, and there is one exactly when it can be made. */
  ghost predicate PlanMeans(h: Host, start: seq<Event>, aim: Aim, output: string, r: Result<PlanFile>) {
    Steady(h.world, start, aim) ==>
      && var observed := Observed(h.world(start), h.identify, aim);
      && (r.Ok? ==> observed.Ok? && r.value.payload == PlanPayload(aim.repo, aim.references, observed.value))
      && (r.Ok? ==> r.value.planId == h.digest(r.value.payload))
      && (Creatable(h) ==> (r.Ok? <==> Plannable(h.world(start), h.identify, aim, output)))
  }

  method MakePlan(h: Host, aim: Aim, output: string) returns (r: Result<PlanFile>)
    modifies h`trace
    ensures Seen(h.trace, r) == PlanFileSeen(h, old(h.trace), aim, output)
    ensures PlanMeans(h, old(h.trace), aim, output, r)
    ensures OnlyReserves(old(h.trace), h.trace, output)
  {
    PlanMeansIt(h, h.trace, aim, output);
    PlanOnlyReserves(h, h.trace, aim, output);
    var observed := ObserveForPlan(h, aim);
    var entry :- observed;
    var s := h.Look(Resolve(output));
    :- Require(External(s.resolve(output), aim.repo, aim.target));
    var payload := PlanPayload(aim.repo, aim.references, entry);
    var written := h.Reserve(output);
    var _ :- written;
    r := Ok(PlanFile(payload, h.digest(payload)));
  }

  lemma PlanOnlyLooks(h: Host, trace: seq<Event>, aim: Aim)
    ensures OnlyLooks(trace, PlanSeen(h, trace, aim).trace)
  {
    ObservationOnlyLooks(h.world, h.identify, After(trace, Toplevel), aim);
  }

  /** `after` continues `before` by looking, and by creating the one file. */
  ghost predicate OnlyReserves(before: seq<Event>, after: seq<Event>, output: string) {
    && before <= after
    && forall i | |before| <= i < |after| :: after[i].Looked? || (after[i].Reserved? && after[i].output == output)
  }

  lemma ReservesOn(before: seq<Event>, mid: seq<Event>, output: string, done: Result<()>)
    requires OnlyLooks(before, mid)
    ensures OnlyReserves(before, mid, output)
    ensures OnlyReserves(before, After(mid, Resolve(output)), output)
    ensures OnlyReserves(before, After(mid, Resolve(output)) + [Reserved(output, done)], output)
  {
  }

  /** A plan does nothing but look and create its file. */
  lemma PlanOnlyReserves(h: Host, trace: seq<Event>, aim: Aim, output: string)
    ensures OnlyReserves(trace, PlanFileSeen(h, trace, aim, output).trace, output)
  {
    var seen := PlanSeen(h, trace, aim).trace;
    PlanOnlyLooks(h, trace, aim);
    ReservesOn(trace, seen, output, h.reserve(After(seen, Resolve(output))));
  }

  lemma PlanWhenSteady(h: Host, trace: seq<Event>, aim: Aim)
    requires Steady(h.world, trace, aim)
    ensures PlanSeen(h, trace, aim).value.Ok? <==>
              h.world(trace).toplevel == Ok(aim.repo) && Observed(h.world(trace), h.identify, aim).Ok?
    ensures PlanSeen(h, trace, aim).value.Ok? ==> PlanSeen(h, trace, aim).value == Observed(h.world(trace), h.identify, aim)
    ensures Alike(h.world(PlanSeen(h, trace, aim).trace), h.world(trace), aim)
  {
    ObservationWhenSteady(h.world, h.identify, trace, After(trace, Toplevel), aim);
    PlanOnlyLooks(h, trace, aim);
    assert Quiet(trace, PlanSeen(h, trace, aim).trace);
  }

  /** `PlanMeans` of every host. */
  lemma PlanMeansIt(h: Host, start: seq<Event>, aim: Aim, output: string)
    ensures PlanMeans(h, start, aim, output, PlanFileSeen(h, start, aim, output).value)
  {
    if Steady(h.world, start, aim) {
      PlanWhenSteady(h, start, aim);
    }
  }

  // ----------------------------------------------------------------------- checks

  /** The plan is unmodified, approved as it is, and says that its one target may go. */
  predicate Authorised(digest: Payload -> string, plan: PlanFile, approved: string) {
    && plan.payload.schema == CleanupV1 && plan.payload.kind == PlanKind
    && digest(plan.payload) == plan.planId && approved == plan.planId
    && |plan.payload.entries| == 1
    && plan.payload.entries[0].disposition == Eligible
    && (plan.payload.entries[0].action == Remove || plan.payload.entries[0].action == Prune)
  }

  /** An unchanging system in which the plan still holds. */
  predicate PlanHolds(s: Snapshot, identify: string -> string, digest: Payload -> string,
                      plan: PlanFile, approved: string, output: string) {
    && Authorised(digest, plan, approved)
    && var p := plan.payload;
    && var entry := p.entries[0];
    && External(s.resolve(output), p.repository, entry.path)
    && s.common.Ok?
    && Observed(s, identify, AimOf(p, entry)) == Ok(entry)
  }

  /** The receipt can always be created and written. */
  ghost predicate Writable(h: Host) {
    forall trace :: h.reserve(trace).Ok? && h.write(trace).Ok?
  }

  ghost predicate LockFree(h: Host) {
    forall trace :: h.lock(trace).Ok?
  }

  /** The lock is taken, and then the target is observed afresh. */
  function LockedSeen(h: Host, trace: seq<Event>, aim: Aim): Seen<Result<Entry>> {
    var found := After(trace, AbsoluteCommonDir);
    match h.world(trace).common
    case Err(e) => Seen(found, Err(e))
    case Ok(_) =>
      var taken := found + [Locked(h.lock(found))];
      match h.lock(found)
      case Err(e) => Seen(taken, Err(e))
      case Ok(_) => ObservationSeen(h.world, h.identify, taken, aim)
  }

  /** The plan alone is good, and the receipt will go outside. */
  predicate Approved(h: Host, trace: seq<Event>, plan: PlanFile, approved: string, output: string) {
    && Authorised(h.digest, plan, approved)
    && External(h.world(trace).resolve(output), plan.payload.repository, plan.payload.entries[0].path)
  }

  /** The checks of a plan that is good, in every world: the resolved output, or a refusal. */
  function ChecksSeen(h: Host, trace: seq<Event>, plan: PlanFile, output: string): Seen<Result<string>>
    requires |plan.payload.entries| == 1
  {
    var entry := plan.payload.entries[0];
    var seen := LockedSeen(h, After(trace, Resolve(output)), AimOf(plan.payload, entry));
    match seen.value
    case Err(e) => Seen(seen.trace, Err(e))
    case Ok(now) => Seen(seen.trace, if now == entry then Ok(h.world(trace).resolve(output)) else Err(Refused))
  }

  method ObserveLocked(h: Host, aim: Aim) returns (r: Result<Entry>)
    modifies h`trace
    ensures Seen(h.trace, r) == LockedSeen(h, old(h.trace), aim)
  {
    var s := h.Look(AbsoluteCommonDir);
    var _ :- s.common;
    var locked := h.Lock();
    var _ :- locked;
    r := Observe(h, aim);
  }

  /** The plan and its approval are checked, and where the receipt will go. */
  method Approve(h: Host, plan: PlanFile, approved: string, output: string) returns (r: Result<string>)
    modifies h`trace
    ensures h.trace == old(h.trace) || h.trace == After(old(h.trace), Resolve(output))
    ensures r.Ok? <==> Approved(h, old(h.trace), plan, approved, output)
    ensures r.Ok? ==> h.trace == After(old(h.trace), Resolve(output)) && r.value == h.world(old(h.trace)).resolve(output)
  {
    var p := plan.payload;
    :- Require(p.schema == CleanupV1 && p.kind == PlanKind);
    :- Require(h.digest(p) == plan.planId && approved == plan.planId);
    :- Require(|p.entries| == 1);
    var entry := p.entries[0];
    var s := h.Look(Resolve(output));
    :- Require(External(s.resolve(output), p.repository, entry.path));
    :- Require(entry.disposition == Eligible && (entry.action == Remove || entry.action == Prune));
    r := Ok(s.resolve(output));
  }

  /** Everything `apply_plan` does before it reserves its receipt: the resolved output. The
      lock is freed by the end of the whole run, so what is taken here is held to the end. */
  method Check(h: Host, plan: PlanFile, approved: string, output: string) returns (r: Result<string>)
    modifies h`trace
    ensures if Approved(h, old(h.trace), plan, approved, output)
            then Seen(h.trace, r) == ChecksSeen(h, old(h.trace), plan, output)
            else r.Err? && (h.trace == old(h.trace) || h.trace == After(old(h.trace), Resolve(output)))
  {
    r := Approve(h, plan, approved, output);
    var _ :- r;
    var entry := plan.payload.entries[0];
    var observed := ObserveLocked(h, AimOf(plan.payload, entry));
    var now :- observed;
    :- Require(now == entry);
  }

  /** What the checks say of a plan, on a host that had the history `start`: they pass only
      an authorised plan, only one that holds if nothing changed meanwhile, and then each one
      that holds if the lock is free. */
  ghost predicate ChecksMean(h: Host, start: seq<Event>, plan: PlanFile, approved: string, output: string, passed: bool) {
    && (passed ==> Authorised(h.digest, plan, approved))
    && (|plan.payload.entries| == 1 && Steady(h.world, start, AimOf(plan.payload, plan.payload.entries[0])) ==>
          && (passed ==> PlanHolds(h.world(start), h.identify, h.digest, plan, approved, output))
          && (LockFree(h) && PlanHolds(h.world(start), h.identify, h.digest, plan, approved, output) ==> passed))
  }

  /** The checks of a history that had length `start` before them and `base` after them took
      the lock, and the planned entry is what the steps between the two have shown. */
  ghost predicate UnderLock(world: World, identify: string -> string, trace: seq<Event>, start: nat, base: nat, plan: PlanFile,
                            output: string) {
    && |plan.payload.entries| == 1 && start + 3 <= base <= |trace|
    && trace[start] == Looked(Resolve(output)) && trace[start + 1] == Looked(AbsoluteCommonDir)
    && trace[start + 2] == Locked(Ok(()))
    && var entry := plan.payload.entries[0];
    && ObservedBetween(world, identify, trace, start + 3, base, AimOf(plan.payload, entry), entry)
  }

  lemma LockedWhenSteady(h: Host, start: seq<Event>, trace: seq<Event>, aim: Aim)
    requires Steady(h.world, start, aim) && Quiet(start, trace)
    ensures var r := LockedSeen(h, trace, aim).value;
      && (r.Ok? ==> h.world(start).common.Ok? && r == Observed(h.world(start), h.identify, aim))
      && (LockFree(h) && h.world(start).common.Ok? ==> r == Observed(h.world(start), h.identify, aim))
  {
    var found := After(trace, AbsoluteCommonDir);
    var taken := found + [Locked(h.lock(found))];
    assert Quiet(start, taken);
    ObservationWhenSteady(h.world, h.identify, start, taken, aim);
  }

  lemma LockedIsQuiet(h: Host, trace: seq<Event>, aim: Aim)
    ensures Quiet(trace, LockedSeen(h, trace, aim).trace)
  {
    var found := After(trace, AbsoluteCommonDir);
    var taken := found + [Locked(h.lock(found))];
    ObservationOnlyLooks(h.world, h.identify, taken, aim);
    QuietOn(trace, taken, ObservationSeen(h.world, h.identify, taken, aim).trace);
  }

  lemma LockedInOrder(h: Host, trace: seq<Event>, aim: Aim)
    requires LockedSeen(h, trace, aim).value.Ok?
    ensures var seen := LockedSeen(h, trace, aim);
      && |trace| + 2 <= |seen.trace|
      && seen.trace[|trace|] == Looked(AbsoluteCommonDir) && seen.trace[|trace| + 1] == Locked(Ok(()))
      && seen.trace[..|trace| + 2] == trace + [Looked(AbsoluteCommonDir), Locked(Ok(()))]
      && seen == ObservationSeen(h.world, h.identify, seen.trace[..|trace| + 2], aim)
  {
    var found := After(trace, AbsoluteCommonDir);
    var taken := found + [Locked(h.lock(found))];
    assert h.lock(found).value == ();
    assert taken == trace + [Looked(AbsoluteCommonDir), Locked(Ok(()))];
    ObservationOnlyLooks(h.world, h.identify, taken, aim);
    assert LockedSeen(h, trace, aim).trace[..|trace| + 2] == taken;
  }

  /** Checks that pass have read, under the lock, what the plan says. */
  lemma ChecksAreUnderLock(h: Host, start: seq<Event>, trace: seq<Event>, plan: PlanFile, output: string)
    requires |plan.payload.entries| == 1
    requires ChecksSeen(h, start, plan, output).value.Ok?
    requires ChecksSeen(h, start, plan, output).trace <= trace
    ensures start <= trace
    ensures UnderLock(h.world, h.identify, trace, |start|, |ChecksSeen(h, start, plan, output).trace|, plan, output)
  {
    var aim := AimOf(plan.payload, plan.payload.entries[0]);
    var seen := LockedSeen(h, After(start, Resolve(output)), aim);
    LockedInOrder(h, After(start, Resolve(output)), aim);
    ThreeSteps(start, Looked(Resolve(output)), Looked(AbsoluteCommonDir), Locked(Ok(())), seen.trace, trace);
  }

  lemma ThreeSteps(start: seq<Event>, a: Event, b: Event, c: Event, whole: seq<Event>, trace: seq<Event>)
    requires |start| + 3 <= |whole| && whole[..|start| + 3] == start + [a] + [b, c] && whole <= trace
    ensures start <= trace && trace[|start|] == a && trace[|start| + 1] == b && trace[|start| + 2] == c
    ensures trace[..|start| + 3] == whole[..|start| + 3] && trace[..|whole|] == whole
  {
    var head := whole[..|start| + 3];
    assert head[|start|] == a && head[|start| + 1] == b && head[|start| + 2] == c;
    assert head[..|start|] == start;
  }

  /** `ChecksMean` of every host. */
  lemma ChecksMeanIt(h: Host, start: seq<Event>, plan: PlanFile, approved: string, output: string)
    ensures ChecksMean(h, start, plan, approved, output,
                       Approved(h, start, plan, approved, output) && ChecksSeen(h, start, plan, output).value.Ok?)
  {
    if |plan.payload.entries| == 1 && Steady(h.world, start, AimOf(plan.payload, plan.payload.entries[0])) {
      LockedWhenSteady(h, start, After(start, Resolve(output)), AimOf(plan.payload, plan.payload.entries[0]));
    }
  }

  // ----------------------------------------------------------------------- effect

  function WithResult(plan: PlanFile, entry: Entry, status: Verdict): Payload {
    plan.payload.(kind := ResultKind, status := status, entries := [entry])
  }

  /** The receipt that is written before the effect. */
  function Pending(plan: PlanFile, entry: Entry): Payload {
    WithResult(plan, entry.(disposition := Undecided, reasons := [PendingReadback]), FAIL)
  }

  function Unverified(plan: PlanFile, entry: Entry, reason: Reason): Payload {
    WithResult(plan, entry.(disposition := Undecided, reasons := [reason]), FAIL)
  }

  function Verified(plan: PlanFile, entry: Entry): Payload {
    WithResult(plan, entry.(disposition := if entry.present then Gone else Pruned, reasons := [],
                            nextAction := RetainCustodyRef), PASS)
  }

  /** A receipt that claims nothing. */
  predicate ClaimsNothing(receipt: Payload) {
    receipt.status == FAIL && |receipt.entries| == 1 && receipt.entries[0].disposition == Undecided
  }

  /** The exceptions that are caught while the effect is under way. */
  predicate Caught(error: Error) {
    error == SystemError || error == SubprocessError
  }

  /** The four readings that a pass stands on, in the steps that follow the removal at `k`. */
  ghost predicate ReadBack(world: World, trace: seq<Event>, k: nat, entry: Entry) {
    && k + 3 < |trace|
    && trace[k] == Removed(entry.path, Ok(0))
    && trace[k + 1] == Looked(Worktrees) && trace[k + 2] == Looked(Revision(entry.custody))
    && trace[k + 3] == Looked(Present(entry.path))
    && world(trace[..k + 1]).porcelain.Ok?
    && Registered(world(trace[..k + 1]).porcelain.value, entry.path) == []
    && world(trace[..k + 2]).revisions(entry.custody) == Ok(entry.head)
    && !world(trace[..k + 3]).present(entry.path)
  }

  /** What the readback amounts to, when the removal has ended with `code` and the history
      since is `trace` and then the looks of the readback. */
  function Confirmed(world: World, trace: seq<Event>, entry: Entry, code: Result<int>): Result<bool> {
    var exit :- code;
    var porcelain :- world(trace).porcelain;
    var custodyHead :- world(trace + [Looked(Worktrees)]).revisions(entry.custody);
    Ok(exit == 0 && Registered(porcelain, entry.path) == [] && custodyHead == entry.head
       && !world(trace + [Looked(Worktrees)] + [Looked(Revision(entry.custody))]).present(entry.path))
  }

  /** The checks after the removal, which was step `|old(h.trace)| - 1`. */
  method Verify(h: Host, entry: Entry, code: Result<int>) returns (r: Result<bool>)
    requires |h.trace| > 0 && h.trace[|h.trace| - 1] == Removed(entry.path, code)
    modifies h`trace
    ensures old(h.trace) <= h.trace && forall i | |old(h.trace)| <= i < |h.trace| :: h.trace[i].Looked?
    ensures r == Ok(true) ==> |h.trace| == |old(h.trace)| + 3 && ReadBack(h.world, h.trace, |old(h.trace)| - 1, entry)
    ensures r == Confirmed(h.world, old(h.trace), entry, code)
  {
    ghost var t := h.trace;
    var exit :- code;
    var s := h.Look(Worktrees);
    var porcelain :- s.porcelain;
    var remaining := Registered(porcelain, entry.path) != [];
    s := h.Look(Revision(entry.custody));
    var custodyHead :- s.revisions(entry.custody);
    if exit != 0 || remaining {
      return Ok(false);
    }
    s := h.Look(Present(entry.path));
    assert h.trace[..|t|] == t && h.trace[..|t| + 1] == t + [Looked(Worktrees)];
    assert h.trace[..|t| + 2] == t + [Looked(Worktrees)] + [Looked(Revision(entry.custody))];
    r := Ok(!s.present(entry.path) && custodyHead == entry.head);
  }

  /** A receipt that is written after the removal, as the last step of `trace`. */
  ghost predicate FinalReceipt(world: World, trace: seq<Event>, base: nat, plan: PlanFile, receipt: Payload)
    requires |plan.payload.entries| == 1
  {
    var entry := plan.payload.entries[0];
    ClaimsNothing(receipt) || (receipt == Verified(plan, entry) && |trace| == base + 7 && ReadBack(world, trace, base + 2, entry))
  }

  /** What a history may contain once the checks, which end at `base`, are over: the
      receipt is reserved, then written, then the removal is issued, and a last receipt
      follows its readback. Every crash leaves a prefix of such a history behind. */
  ghost predicate EffectHistory(world: World, trace: seq<Event>, base: nat, plan: PlanFile, output: string) {
    && |plan.payload.entries| == 1
    && var entry := plan.payload.entries[0];
    && base <= |trace|
    && (|trace| > base ==> trace[base].Reserved? && trace[base].output == output)
    && (|trace| > base + 1 ==> trace[base].done.Ok? && trace[base + 1].Saved? && trace[base + 1].receipt == Pending(plan, entry))
    && (|trace| > base + 2 ==> trace[base + 1].done.Ok? && trace[base + 2].Removed? && trace[base + 2].target == entry.path)
    && (forall k | base + 3 <= k < |trace| ::
          || trace[k].Looked?
          || (k == |trace| - 1 && trace[k].Saved? && FinalReceipt(world, trace, base, plan, trace[k].receipt)))
  }

  /** The receipt is reserved and written, and then the removal is issued. */
  method Issue(h: Host, plan: PlanFile, output: string) returns (r: Result<()>, code: Result<int>)
    requires |plan.payload.entries| == 1
    modifies h`trace
    ensures old(h.trace) <= h.trace
    ensures EffectHistory(h.world, h.trace, |old(h.trace)|, plan, output)
    ensures r.Ok? ==> |h.trace| == |old(h.trace)| + 3
                      && h.trace[|old(h.trace)| + 2] == Removed(plan.payload.entries[0].path, code)
                      && code == h.remove(h.trace[..|old(h.trace)| + 2])
    ensures r.Err? ==> |h.trace| <= |old(h.trace)| + 2
    ensures Writable(h) ==> r.Ok?
  {
    code := Err(Refused);
    var entry := plan.payload.entries[0];
    var done := h.Reserve(output);
    var _ :- done;
    done := h.Save(Pending(plan, entry));
    var _ :- done;
    ghost var before := h.trace;
    code := h.Remove(entry.path);
    assert h.trace[..|before|] == before;
    r := Ok(());
  }

  /** The receipt after the readback: it claims something only if that was as planned. */
  function Outcome(plan: PlanFile, entry: Entry, verified: Result<bool>): (receipt: Payload)
    ensures verified == Ok(true) ==> receipt == Verified(plan, entry)
    ensures verified != Ok(true) ==> ClaimsNothing(receipt)
  {
    if verified == Ok(true) then Verified(plan, entry)
    else if verified == Ok(false) then Unverified(plan, entry, EffectUnverified)
    else Unverified(plan, entry, OutcomeUnknown)
  }

  /** How a run ends whose removal was issued: what the readback amounts to, which is told by
      the readings since, decides the last receipt and the exit code. Only an exception that is
      not caught leaves the pending receipt in place. */
  ghost predicate Concluded(world: World, remove: seq<Event> -> Result<int>, trace: seq<Event>, base: nat, plan: PlanFile,
                            r: Result<int>)
    requires |plan.payload.entries| == 1
  {
    && |trace| > base + 2 && trace[base + 2] == Removed(plan.payload.entries[0].path, remove(trace[..base + 2]))
    && Closed(trace, base, plan, Confirmed(world, trace[..base + 3], plan.payload.entries[0], trace[base + 2].code), r)
  }

  ghost predicate Closed(trace: seq<Event>, base: nat, plan: PlanFile, verified: Result<bool>, r: Result<int>)
    requires |plan.payload.entries| == 1 && |trace| > base + 2
  {
    if verified.Err? && !Caught(verified.error) then
      r == Err(verified.error) && forall k | base + 3 <= k < |trace| :: trace[k].Looked?
    else
      var last := trace[|trace| - 1];
      && last.Saved? && last.receipt == Outcome(plan, plan.payload.entries[0], verified)
      && r == if last.done.Err? then Err(last.done.error) else Ok(if verified == Ok(true) then 0 else 2)
  }

  /** A receipt that is the last step was written through. */
  ghost predicate Through(trace: seq<Event>) {
    |trace| > 0 && trace[|trace| - 1].Saved? ==> trace[|trace| - 1].done.Ok?
  }

  /** The history ends with a receipt that claims the retirement. */
  ghost predicate PassWritten(trace: seq<Event>, base: nat, plan: PlanFile) {
    && |plan.payload.entries| == 1
    && |trace| == base + 7 && trace[base + 6] == Saved(Verified(plan, plan.payload.entries[0]), Ok(()))
  }

  /** The last receipt, unless the readback failed with an exception that is not caught. */
  method Report(h: Host, plan: PlanFile, output: string, verified: Result<bool>, ghost base: nat) returns (r: Result<int>)
    requires EffectHistory(h.world, h.trace, base, plan, output) && |h.trace| > base + 2
    requires forall k | base + 3 <= k < |h.trace| :: h.trace[k].Looked?
    requires verified == Ok(true) ==>
               |h.trace| == base + 6 && ReadBack(h.world, h.trace, base + 2, plan.payload.entries[0])
    modifies h`trace
    ensures old(h.trace) <= h.trace
    ensures EffectHistory(h.world, h.trace, base, plan, output)
    ensures r == Ok(0) ==> PassWritten(h.trace, base, plan)
    ensures Closed(h.trace, base, plan, verified, r)
    ensures Writable(h) ==> Through(h.trace)
  {
    if verified.Err? && !Caught(verified.error) {
      return Err(verified.error);
    }
    ghost var checked := h.trace;
    var receipt := Outcome(plan, plan.payload.entries[0], verified);
    var done := h.Save(receipt);
    EffectSaved(h.world, checked, base, plan, output, receipt, done);
    var _ :- done;
    r := Ok(if verified == Ok(true) then 0 else 2);
  }

  /** What follows the removal: the result is the exit code. */
  method Finish(h: Host, plan: PlanFile, output: string, code: Result<int>, ghost base: nat) returns (r: Result<int>)
    requires EffectHistory(h.world, h.trace, base, plan, output) && |h.trace| == base + 3
    requires h.trace[base + 2] == Removed(plan.payload.entries[0].path, code) && code == h.remove(h.trace[..base + 2])
    modifies h`trace
    ensures old(h.trace) <= h.trace
    ensures EffectHistory(h.world, h.trace, base, plan, output)
    ensures r == Ok(0) ==> PassWritten(h.trace, base, plan)
    ensures Concluded(h.world, h.remove, h.trace, base, plan, r)
    ensures Writable(h) ==> Through(h.trace)
  {
    ghost var removed := h.trace;
    var verified := Verify(h, plan.payload.entries[0], code);
    EffectLooks(h.world, removed, h.trace, base, plan, output);
    r := Report(h, plan, output, verified, base);
    assert h.trace[..base + 3] == removed && h.trace[..base + 2] == removed[..base + 2];
  }

  /** The effect and its readback; the result is the exit code. */
  method Retire(h: Host, plan: PlanFile, output: string) returns (r: Result<int>)
    requires |plan.payload.entries| == 1
    modifies h`trace
    ensures old(h.trace) <= h.trace
    ensures EffectHistory(h.world, h.trace, |old(h.trace)|, plan, output)
    ensures r == Ok(0) ==> PassWritten(h.trace, |old(h.trace)|, plan)
    ensures if |h.trace| > |old(h.trace)| + 2 then Concluded(h.world, h.remove, h.trace, |old(h.trace)|, plan, r) else r.Err?
    ensures Writable(h) ==> |h.trace| > |old(h.trace)| + 2 && Through(h.trace)
  {
    ghost var base := |h.trace|;
    var issued, code := Issue(h, plan, output);
    var _ :- issued;
    r := Finish(h, plan, output, code, base);
  }

  lemma EffectLooks(world: World, before: seq<Event>, after: seq<Event>, base: nat, plan: PlanFile, output: string)
    requires EffectHistory(world, before, base, plan, output) && |before| == base + 3
    requires before <= after && forall i | |before| <= i < |after| :: after[i].Looked?
    ensures EffectHistory(world, after, base, plan, output)
  {
  }

  lemma EffectSaved(world: World, before: seq<Event>, base: nat, plan: PlanFile, output: string,
                    receipt: Payload, done: Result<()>)
    requires EffectHistory(world, before, base, plan, output) && |before| > base + 2
    requires forall k | base + 3 <= k < |before| :: before[k].Looked?
    requires ClaimsNothing(receipt)
             || (receipt == Verified(plan, plan.payload.entries[0]) && |before| == base + 6
                 && ReadBack(world, before, base + 2, plan.payload.entries[0]))
    ensures EffectHistory(world, before + [Saved(receipt, done)], base, plan, output)
  {
    var after := before + [Saved(receipt, done)];
    if !ClaimsNothing(receipt) {
      assert after[..base + 3] == before[..base + 3];
      assert after[..base + 4] == before[..base + 4];
      assert after[..base + 5] == before[..base + 5];
      assert ReadBack(world, after, base + 2, plan.payload.entries[0]);
    }
  }

  /** `apply_plan`. A removal is issued only under an authorised plan, and every history
      it can leave behind, crashed or not, is one of `EffectHistory`. */
  method Apply(h: Host, plan: PlanFile, approved: string, output: string)
    returns (r: Result<int>, ghost base: nat, ghost resolved: string, ghost passed: bool)
    modifies h`trace
    ensures |old(h.trace)| <= base <= |h.trace| && old(h.trace) <= h.trace && Quiet(old(h.trace), h.trace[..base])
    ensures passed <==> Approved(h, old(h.trace), plan, approved, output) && ChecksSeen(h, old(h.trace), plan, output).value.Ok?
    ensures ChecksMean(h, old(h.trace), plan, approved, output, passed)
    ensures !passed ==> |h.trace| == base && r.Err?
    ensures passed ==> resolved == h.world(old(h.trace)).resolve(output)
    ensures passed ==> UnderLock(h.world, h.identify, h.trace, |old(h.trace)|, base, plan, output)
    ensures passed ==> EffectHistory(h.world, h.trace, base, plan, resolved)
    ensures r == Ok(0) ==> passed && PassWritten(h.trace, base, plan)
    ensures passed ==> if |h.trace| > base + 2 then Concluded(h.world, h.remove, h.trace, base, plan, r) else r.Err?
    ensures passed && Writable(h) ==> |h.trace| > base + 2 && Through(h.trace)
  {
    ghost var start := h.trace;
    ChecksMeanIt(h, start, plan, approved, output);
    var checked := Check(h, plan, approved, output);
    base, resolved, passed := |h.trace|, checked.GetOr([]), checked.Ok?;
    ghost var before := h.trace;
    r := Proceed(h, plan, checked);
    ChecksFirst(h, start, before, h.trace, plan, approved, output);
  }

  /** What the checks have left at the beginning of the history. */
  lemma ChecksFirst(h: Host, start: seq<Event>, before: seq<Event>, trace: seq<Event>, plan: PlanFile, approved: string,
                    output: string)
    requires if Approved(h, start, plan, approved, output) then before == ChecksSeen(h, start, plan, output).trace
             else before == start || before == After(start, Resolve(output))
    requires before <= trace
    ensures start <= trace && Quiet(start, trace[..|before|])
    ensures Approved(h, start, plan, approved, output) && ChecksSeen(h, start, plan, output).value.Ok? ==>
              UnderLock(h.world, h.identify, trace, |start|, |before|, plan, output)
  {
    assert trace[..|before|] == before;
    ChecksAreQuiet(h, start, before, plan, approved, output);
    if Approved(h, start, plan, approved, output) && ChecksSeen(h, start, plan, output).value.Ok? {
      ChecksAreUnderLock(h, start, trace, plan, output);
    }
  }

  lemma ChecksAreQuiet(h: Host, start: seq<Event>, trace: seq<Event>, plan: PlanFile, approved: string, output: string)
    requires if Approved(h, start, plan, approved, output) then trace == ChecksSeen(h, start, plan, output).trace
             else trace == start || trace == After(start, Resolve(output))
    ensures Quiet(start, trace)
  {
    if Approved(h, start, plan, approved, output) {
      var looked := After(start, Resolve(output));
      LockedIsQuiet(h, looked, AimOf(plan.payload, plan.payload.entries[0]));
      assert Quiet(looked, trace);
    }
  }

  /** What follows the checks: nothing, if they failed. */
  method Proceed(h: Host, plan: PlanFile, checked: Result<string>) returns (r: Result<int>)
    requires checked.Ok? ==> |plan.payload.entries| == 1
    modifies h`trace
    ensures old(h.trace) <= h.trace
    ensures checked.Err? ==> h.trace == old(h.trace) && r.Err?
    ensures checked.Ok? ==> EffectHistory(h.world, h.trace, |old(h.trace)|, plan, checked.value)
    ensures r == Ok(0) ==> PassWritten(h.trace, |old(h.trace)|, plan)
    ensures checked.Ok? ==> if |h.trace| > |old(h.trace)| + 2 then Concluded(h.world, h.remove, h.trace, |old(h.trace)|, plan, r) else r.Err?
    ensures checked.Ok? && Writable(h) ==> |h.trace| > |old(h.trace)| + 2 && Through(h.trace)
  {
    if checked.Ok? {
      r := Retire(h, plan, checked.value);
    } else {
      r := Err(checked.error);
    }
  }
}
