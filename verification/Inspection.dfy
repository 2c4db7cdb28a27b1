/** The steps by which scripts/cleanup_worktrees.py observes a worktree, on a host that may
    change between any two of them. */
module Inspection {
  import opened Values
  import opened Observation
  import Registrations

  // ------------------------------------------------------------------------- the host

  datatype Schema = CleanupV1 | OtherSchema(text: string)

  datatype Kind = PlanKind | ResultKind | OtherKind(text: string)

  datatype Verdict = PASS | FAIL | HELD | OtherVerdict(text: string)

  datatype Payload = Payload(schema: Schema, kind: Kind, repository: string, references: string,
                             entries: seq<Entry>, status: Verdict)

  datatype Event =
    | Looked(query: Query)
    | Locked(done: Result<()>)
    | Reserved(output: string, done: Result<()>)
    | Saved(receipt: Payload, done: Result<()>)
    | Removed(target: string, code: Result<int>)

  /** The state of the host after each history. */
  type World = seq<Event> -> Snapshot

  /** The host may change between any two steps, and every effect may fail. */
  class Host {
    const world: World
    const lock: seq<Event> -> Result<()>
    const reserve: seq<Event> -> Result<()>
    const write: seq<Event> -> Result<()>
    const remove: seq<Event> -> Result<int>
    const identify: string -> string
    const digest: Payload -> string
    var trace: seq<Event>

    constructor (world: World, lock: seq<Event> -> Result<()>, reserve: seq<Event> -> Result<()>,
                 write: seq<Event> -> Result<()>, remove: seq<Event> -> Result<int>,
                 identify: string -> string, digest: Payload -> string)
      ensures this.world == world && this.lock == lock && this.reserve == reserve && this.write == write && this.remove == remove
      ensures this.identify == identify && this.digest == digest && trace == []
    {
      this.world, this.lock, this.reserve, this.write, this.remove := world, lock, reserve, write, remove;
      this.identify, this.digest := identify, digest;
      trace := [];
    }

    method Look(query: Query) returns (s: Snapshot)
      modifies this`trace
      ensures s == world(old(trace)) && trace == old(trace) + [Looked(query)]
    {
      s := world(trace);
      trace := trace + [Looked(query)];
    }

    method Lock() returns (done: Result<()>)
      modifies this`trace
      ensures done == lock(old(trace)) && trace == old(trace) + [Locked(done)]
    {
      done := lock(trace);
      trace := trace + [Locked(done)];
    }

    /** Creates a file that must not exist yet. */
    method Reserve(output: string) returns (done: Result<()>)
      modifies this`trace
      ensures done == reserve(old(trace)) && trace == old(trace) + [Reserved(output, done)]
    {
      done := reserve(trace);
      trace := trace + [Reserved(output, done)];
    }

    /** Rewrites the receipt and forces it to disk. */
    method Save(receipt: Payload) returns (done: Result<()>)
      modifies this`trace
      ensures done == write(old(trace)) && trace == old(trace) + [Saved(receipt, done)]
    {
      done := write(trace);
      trace := trace + [Saved(receipt, done)];
    }

    /** `git worktree remove`: its exit code. */
    method Remove(target: string) returns (code: Result<int>)
      modifies this`trace
      ensures code == remove(old(trace)) && trace == old(trace) + [Removed(target, code)]
    {
      code := remove(trace);
      trace := trace + [Removed(target, code)];
    }
  }

  // ------------------------------------------------------------- what is seen, step by step

  /** The history after some looks, and what they have shown. */
  datatype Seen<+T> = Seen(trace: seq<Event>, value: T)

  function After(trace: seq<Event>, query: Query): seq<Event> {
    trace + [Looked(query)]
  }

  /** The first link that cannot be read is missing. */
  predicate EndsMissing(links: seq<Result<string>>) {
    links != [] && if links[0].Ok? then EndsMissing(links[1..]) else links[0].error == FileNotFound
  }

  /** The links of one surface, and if they end with a missing one a look at the process. */
  function LinksSeen(world: World, trace: seq<Event>, pid: int, surface: Surface, target: string): Seen<Scan> {
    var links := world(trace).links(pid, surface);
    var read := After(trace, Links(pid, surface));
    Seen(if EndsMissing(links) then After(read, Alive(pid)) else read,
         ScanLinks(links, world(read).alive(pid), pid, surface, target))
  }

  function SurfacesSeen(world: World, trace: seq<Event>, pid: int, surfaces: seq<Surface>, target: string): Seen<Scan>
    decreases |surfaces|
  {
    if surfaces == [] then Seen(trace, Scan([], []))
    else
      var first := LinksSeen(world, trace, pid, surfaces[0], target);
      var rest := SurfacesSeen(world, first.trace, pid, surfaces[1..], target);
      Seen(rest.trace, first.value.Plus(rest.value))
  }

  function PidsSeen(world: World, trace: seq<Event>, pids: seq<int>, target: string): Seen<Scan>
    decreases |pids|
  {
    if pids == [] then Seen(trace, Scan([], []))
    else
      var first := SurfacesSeen(world, trace, pids[0], SURFACES, target);
      var rest := PidsSeen(world, first.trace, pids[1..], target);
      Seen(rest.trace, first.value.Plus(rest.value))
  }

  function CensusSeen(world: World, trace: seq<Event>, target: string): Seen<Census> {
    match world(trace).pids
    case Err(_) => Seen(After(trace, Pids), Census(false, [], [ProcUnavailable]))
    case Ok(pids) =>
      var scan := PidsSeen(world, After(trace, Pids), pids, target);
      Seen(scan.trace, Census(scan.value.unknown == [], scan.value.references, scan.value.unknown))
  }

  function RowSeen(world: World, trace: seq<Event>, aim: Aim): Seen<Result<Registrations.Row>> {
    if !CustodyRef(aim.custody) then Seen(trace, Err(Refused))
    else
      var looked := After(trace, Symlink(aim.target));
      if world(trace).symlink(aim.target) then Seen(looked, Err(Refused))
      else
        var listed := After(looked, Worktrees);
        match world(looked).porcelain
        case Err(e) => Seen(listed, Err(e))
        case Ok(porcelain) =>
          var rows := Registered(porcelain, aim.target);
          if |rows| != 1 then Seen(listed, Err(Refused))
          else
            var found := After(listed, CommonDir);
            match world(listed).primary
            case Err(e) => Seen(found, Err(e))
            case Ok(primary) =>
              Seen(found, if aim.target != primary && aim.target != aim.repo then Ok(rows[0]) else Err(Refused))
  }

  function ConditionSeen(world: World, trace: seq<Event>, target: string): Seen<Result<(bool, string, Census)>> {
    var looked := After(trace, Present(target));
    if !world(trace).present(target) then Seen(looked, Ok((false, [], Census(true, [], []))))
    else
      var read := After(looked, Status(target));
      match world(looked).status(target)
      case Err(e) => Seen(read, Err(e))
      case Ok(state) =>
        var census := CensusSeen(world, read, target);
        Seen(census.trace, Ok((true, state, census.value)))
  }

  function ReviewSeen(world: World, trace: seq<Event>, aim: Aim): Seen<Result<Review>> {
    Seen(After(trace, Report(aim.references)), Reviewed(world(trace), aim))
  }

  /** What is read once the registration is known. */
  function DetailsSeen(world: World, identify: string -> string, trace: seq<Event>, aim: Aim, row: Registrations.Row)
    : Seen<Result<Entry>>
  {
    var resolved := After(trace, Revision(aim.custody));
    match world(trace).revisions(aim.custody)
    case Err(e) => Seen(resolved, Err(e))
    case Ok(custodyHead) =>
      var review := ReviewSeen(world, resolved, aim);
      match review.value
      case Err(e) => Seen(review.trace, Err(e))
      case Ok(reviewed) =>
        var condition := ConditionSeen(world, review.trace, aim.target);
        match condition.value
        case Err(e) => Seen(condition.trace, Err(e))
        case Ok((present, state, processes)) =>
          Seen(condition.trace,
               Ok(Judged(identify(aim.target), aim.target, aim.custody, HeadOf(row), custodyHead, present, state,
                         "locked" in row, reviewed, processes)))
  }

  /** `observe`, in every world: each reading is of the host as it is at that step. */
  function ObservationSeen(world: World, identify: string -> string, trace: seq<Event>, aim: Aim): Seen<Result<Entry>> {
    var row := RowSeen(world, trace, aim);
    match row.value
    case Err(e) => Seen(row.trace, Err(e))
    case Ok(found) => DetailsSeen(world, identify, row.trace, aim, found)
  }

  /** The steps from `from` to `to` are an observation that gave `entry`. */
  ghost predicate ObservedBetween(world: World, identify: string -> string, trace: seq<Event>, from: nat, to: nat, aim: Aim,
                                  entry: Entry) {
    && from <= to <= |trace|
    && forall before | before == trace[..from] :: ObservationSeen(world, identify, before, aim) == Seen(trace[..to], Ok(entry))
  }

  // ----------------------------------------------------------------------- the methods

  lemma PlusNothing(a: Scan)
    ensures Scan([], []).Plus(a) == a && a.Plus(Scan([], [])) == a
  {
  }

  lemma PlusRegroups(a: Scan, b: Scan, c: Scan)
    ensures a.Plus(b).Plus(c) == a.Plus(b.Plus(c))
  {
  }

  /** The links of one surface. */
  method TakeLinks(h: Host, pid: int, surface: Surface, target: string) returns (scan: Scan)
    modifies h`trace
    ensures Seen(h.trace, scan) == LinksSeen(h.world, old(h.trace), pid, surface, target)
  {
    var s := h.Look(Links(pid, surface));
    var links := s.links(pid, surface);
    ghost var alive := h.world(h.trace).alive(pid);
    scan := Scan([], []);
    ghost var looked := h.trace;
    var j := 0;
    assert links[0..] == links;
    PlusNothing(ScanLinks(links, alive, pid, surface, target));
    while j < |links| && links[j].Ok?
      invariant 0 <= j <= |links| && h.trace == looked
      invariant EndsMissing(links[j..]) == EndsMissing(links)
      invariant scan.Plus(ScanLinks(links[j..], alive, pid, surface, target)) == ScanLinks(links, alive, pid, surface, target)
    {
      ghost var one := Scan(if Within(links[j].value, target) then [Reference(pid, surface)] else [], []);
      assert links[j..][1..] == links[j + 1..];
      PlusRegroups(scan, one, ScanLinks(links[j + 1..], alive, pid, surface, target));
      if Within(links[j].value, target) {
        scan := Scan(scan.references + [Reference(pid, surface)], scan.unknown);
      }
      j := j + 1;
      assert scan.unknown + [] == scan.unknown && scan.references + [] == scan.references;
    }
    PlusNothing(scan);
    if j < |links| {
      var gone := false;
      if links[j].error == FileNotFound {
        s := h.Look(Alive(pid));
        gone := !s.alive(pid);
      }
      if !gone {
        scan := Scan(scan.references, scan.unknown + [Unread(pid, surface)]);
      }
    }
  }

  /** The surfaces of one process. */
  method TakeSurfaces(h: Host, pid: int, target: string) returns (scan: Scan)
    modifies h`trace
    ensures Seen(h.trace, scan) == SurfacesSeen(h.world, old(h.trace), pid, SURFACES, target)
  {
    ghost var whole := SurfacesSeen(h.world, h.trace, pid, SURFACES, target);
    scan := Scan([], []);
    PlusNothing(whole.value);
    assert SURFACES[0..] == SURFACES;
    for i := 0 to |SURFACES|
      invariant var rest := SurfacesSeen(h.world, h.trace, pid, SURFACES[i..], target);
        Seen(rest.trace, scan.Plus(rest.value)) == whole
    {
      var more := TakeLinks(h, pid, SURFACES[i], target);
      assert SURFACES[i..][1..] == SURFACES[i + 1..];
      PlusRegroups(scan, more, SurfacesSeen(h.world, h.trace, pid, SURFACES[i + 1..], target).value);
      scan := scan.Plus(more);
    }
    PlusNothing(scan);
  }

  /** `census` */
  method TakeCensus(h: Host, target: string) returns (c: Census)
    modifies h`trace
    ensures Seen(h.trace, c) == CensusSeen(h.world, old(h.trace), target)
  {
    var s := h.Look(Pids);
    if s.pids.Err? {
      return Census(false, [], [ProcUnavailable]);
    }
    var pids := s.pids.value;
    ghost var whole := PidsSeen(h.world, h.trace, pids, target);
    var scan := Scan([], []);
    PlusNothing(whole.value);
    assert pids[0..] == pids;
    for i := 0 to |pids|
      invariant var rest := PidsSeen(h.world, h.trace, pids[i..], target);
        Seen(rest.trace, scan.Plus(rest.value)) == whole
    {
      var more := TakeSurfaces(h, pids[i], target);
      assert pids[i..][1..] == pids[i + 1..];
      PlusRegroups(scan, more, PidsSeen(h.world, h.trace, pids[i + 1..], target).value);
      scan := scan.Plus(more);
    }
    PlusNothing(scan);
    c := Census(scan.unknown == [], scan.references, scan.unknown);
  }

  method ObserveRow(h: Host, aim: Aim) returns (r: Result<Registrations.Row>)
    modifies h`trace
    ensures Seen(h.trace, r) == RowSeen(h.world, old(h.trace), aim)
  {
    var explicit := CustodyRef(aim.custody);
    :- Require(explicit);
    var s := h.Look(Symlink(aim.target));
    :- Require(!s.symlink(aim.target));
    s := h.Look(Worktrees);
    var porcelain :- s.porcelain;
    var rows := Registered(porcelain, aim.target);
    :- Require(|rows| == 1);
    s := h.Look(CommonDir);
    var primary :- s.primary;
    :- Require(aim.target != primary && aim.target != aim.repo);
    r := Ok(rows[0]);
  }

  method ObserveCondition(h: Host, target: string) returns (r: Result<(bool, string, Census)>)
    modifies h`trace
    ensures Seen(h.trace, r) == ConditionSeen(h.world, old(h.trace), target)
  {
    var s := h.Look(Present(target));
    if !s.present(target) {
      return Ok((false, [], Census(true, [], [])));
    }
    s := h.Look(Status(target));
    var state :- s.status(target);
    var processes := TakeCensus(h, target);
    r := Ok((true, state, processes));
  }

  /** `observe` */
  method Observe(h: Host, aim: Aim) returns (r: Result<Entry>)
    modifies h`trace
    ensures Seen(h.trace, r) == ObservationSeen(h.world, h.identify, old(h.trace), aim)
    ensures OnlyLooks(old(h.trace), h.trace)
    ensures Steady(h.world, old(h.trace), aim) ==> r == Observed(h.world(old(h.trace)), h.identify, aim)
    ensures r.Ok? ==> (r.value.disposition == Eligible <==> Retirable(r.value))
  {
    ObservationOnlyLooks(h.world, h.identify, h.trace, aim);
    ObservationWhenSteady(h.world, h.identify, h.trace, h.trace, aim);
    ObservationIsJudged(h.world, h.identify, h.trace, aim);
    var found := ObserveRow(h, aim);
    var row :- found;
    var s := h.Look(Revision(aim.custody));
    var custodyHead :- s.revisions(aim.custody);
    s := h.Look(Report(aim.references));
    var review :- Reviewed(s, aim);
    var condition := ObserveCondition(h, aim.target);
    var read :- condition;
    var (present, state, processes) := read;
    r := Ok(Judged(h.identify(aim.target), aim.target, aim.custody, HeadOf(row), custodyHead, present, state,
                   "locked" in row, review, processes));
  }

  lemma ObservationIsJudged(world: World, identify: string -> string, trace: seq<Event>, aim: Aim)
    ensures var r := ObservationSeen(world, identify, trace, aim).value;
      r.Ok? ==> (r.value.disposition == Eligible <==> Retirable(r.value))
  {
  }

  // ------------------------------------------------------------------ looking is all it does

  /** `after` continues `before` by looking. */
  ghost predicate OnlyLooks(before: seq<Event>, after: seq<Event>) {
    before <= after && forall i | |before| <= i < |after| :: after[i].Looked?
  }

  lemma LooksOn(a: seq<Event>, b: seq<Event>, c: seq<Event>)
    requires OnlyLooks(a, b) && OnlyLooks(b, c)
    ensures OnlyLooks(a, c)
  {
  }

  lemma {:induction false} SurfacesOnlyLooks(world: World, trace: seq<Event>, pid: int, surfaces: seq<Surface>, target: string)
    ensures OnlyLooks(trace, SurfacesSeen(world, trace, pid, surfaces, target).trace)
    decreases |surfaces|
  {
    if surfaces != [] {
      var first := LinksSeen(world, trace, pid, surfaces[0], target).trace;
      SurfacesOnlyLooks(world, first, pid, surfaces[1..], target);
      LooksOn(trace, first, SurfacesSeen(world, first, pid, surfaces[1..], target).trace);
    }
  }

  lemma {:induction false} PidsOnlyLooks(world: World, trace: seq<Event>, pids: seq<int>, target: string)
    ensures OnlyLooks(trace, PidsSeen(world, trace, pids, target).trace)
    decreases |pids|
  {
    if pids != [] {
      var first := SurfacesSeen(world, trace, pids[0], SURFACES, target).trace;
      SurfacesOnlyLooks(world, trace, pids[0], SURFACES, target);
      PidsOnlyLooks(world, first, pids[1..], target);
      LooksOn(trace, first, PidsSeen(world, first, pids[1..], target).trace);
    }
  }

  lemma CensusOnlyLooks(world: World, trace: seq<Event>, target: string)
    ensures OnlyLooks(trace, CensusSeen(world, trace, target).trace)
  {
    if world(trace).pids.Ok? {
      var listed := After(trace, Pids);
      var pids := world(trace).pids.value;
      PidsOnlyLooks(world, listed, pids, target);
      LooksOn(trace, listed, PidsSeen(world, listed, pids, target).trace);
    }
  }

  lemma ConditionOnlyLooks(world: World, trace: seq<Event>, target: string)
    ensures OnlyLooks(trace, ConditionSeen(world, trace, target).trace)
  {
    var read := After(After(trace, Present(target)), Status(target));
    CensusOnlyLooks(world, read, target);
    LooksOn(trace, read, CensusSeen(world, read, target).trace);
  }

  lemma DetailsOnlyLooks(world: World, identify: string -> string, trace: seq<Event>, aim: Aim, row: Registrations.Row)
    ensures OnlyLooks(trace, DetailsSeen(world, identify, trace, aim, row).trace)
  {
    var reported := After(After(trace, Revision(aim.custody)), Report(aim.references));
    ConditionOnlyLooks(world, reported, aim.target);
    LooksOn(trace, reported, ConditionSeen(world, reported, aim.target).trace);
  }

  lemma RowOnlyLooks(world: World, trace: seq<Event>, aim: Aim)
    ensures OnlyLooks(trace, RowSeen(world, trace, aim).trace)
  {
  }

  lemma ObservationOnlyLooks(world: World, identify: string -> string, trace: seq<Event>, aim: Aim)
    ensures OnlyLooks(trace, ObservationSeen(world, identify, trace, aim).trace)
  {
    var row := RowSeen(world, trace, aim);
    RowOnlyLooks(world, trace, aim);
    if row.value.Ok? {
      DetailsOnlyLooks(world, identify, row.trace, aim, row.value.value);
      LooksOn(trace, row.trace, ObservationSeen(world, identify, trace, aim).trace);
    }
  }

  // ------------------------------------------------------------------------ a steady host

  /** `after` continues `before` by looking, and by taking the script's own lock. */
  ghost predicate Quiet(before: seq<Event>, after: seq<Event>) {
    before <= after && forall i | |before| <= i < |after| :: after[i].Looked? || after[i].Locked?
  }

  /** The two states differ in nothing that is read of the target; in particular the links of
      the processes show the same references to it. */
  ghost predicate Alike(a: Snapshot, b: Snapshot, aim: Aim) {
    && a.porcelain == b.porcelain && a.toplevel == b.toplevel && a.primary == b.primary && a.common == b.common
    && a.revisions(aim.custody) == b.revisions(aim.custody) && a.report(aim.references) == b.report(aim.references)
    && a.symlink(aim.target) == b.symlink(aim.target) && a.present(aim.target) == b.present(aim.target)
    && a.status(aim.target) == b.status(aim.target) && a.resolve == b.resolve
    && SameProcesses(a, b, aim.target)
  }

  ghost predicate SameProcesses(a: Snapshot, b: Snapshot, target: string) {
    && a.pids == b.pids
    && forall pid, surface :: SameSurface(a, b, pid, surface, target)
  }

  /** Whether or not the process is then alive. */
  ghost predicate SameSurface(a: Snapshot, b: Snapshot, pid: int, surface: Surface, target: string) {
    && a.alive(pid) == b.alive(pid)
    && forall alive :: ScanLinks(a.links(pid, surface), alive, pid, surface, target)
                    == ScanLinks(b.links(pid, surface), alive, pid, surface, target)
  }

  /** Looking and locking change nothing, and nothing else changes anything meanwhile. */
  ghost predicate Steady(world: World, before: seq<Event>, aim: Aim) {
    forall after {:trigger Quiet(before, after)} | Quiet(before, after) :: Alike(world(after), world(before), aim)
  }

  lemma QuietOn(a: seq<Event>, b: seq<Event>, c: seq<Event>)
    requires Quiet(a, b) && OnlyLooks(b, c)
    ensures Quiet(a, c)
  {
  }

  lemma {:induction false} SurfacesWhenSteady(world: World, before: seq<Event>, trace: seq<Event>, pid: int,
                                              surfaces: seq<Surface>, aim: Aim)
    requires Steady(world, before, aim) && Quiet(before, trace)
    ensures SurfacesSeen(world, trace, pid, surfaces, aim.target).value == ScanSurfaces(world(before), pid, surfaces, aim.target)
    decreases |surfaces|
  {
    if surfaces != [] {
      var read := After(trace, Links(pid, surfaces[0]));
      var first := LinksSeen(world, trace, pid, surfaces[0], aim.target);
      assert Quiet(before, read) && Quiet(before, first.trace);
      assert SameSurface(world(trace), world(before), pid, surfaces[0], aim.target);
      assert SameSurface(world(read), world(before), pid, surfaces[0], aim.target);
      assert first.value == ScanSurface(world(before), pid, surfaces[0], aim.target);
      SurfacesWhenSteady(world, before, first.trace, pid, surfaces[1..], aim);
    }
  }

  lemma {:induction false} PidsWhenSteady(world: World, before: seq<Event>, trace: seq<Event>, pids: seq<int>, aim: Aim)
    requires Steady(world, before, aim) && Quiet(before, trace)
    ensures PidsSeen(world, trace, pids, aim.target).value == ScanPids(world(before), pids, aim.target)
    decreases |pids|
  {
    if pids != [] {
      var first := SurfacesSeen(world, trace, pids[0], SURFACES, aim.target);
      SurfacesOnlyLooks(world, trace, pids[0], SURFACES, aim.target);
      QuietOn(before, trace, first.trace);
      SurfacesWhenSteady(world, before, trace, pids[0], SURFACES, aim);
      PidsWhenSteady(world, before, first.trace, pids[1..], aim);
    }
  }

  /** The census of a steady host is that of its state. */
  lemma CensusWhenSteady(world: World, before: seq<Event>, trace: seq<Event>, aim: Aim)
    requires Steady(world, before, aim) && Quiet(before, trace)
    ensures CensusSeen(world, trace, aim.target).value == CensusOf(world(before), aim.target)
  {
    assert world(trace).pids == world(before).pids;
    if world(trace).pids.Ok? {
      PidsWhenSteady(world, before, After(trace, Pids), world(trace).pids.value, aim);
    }
  }

  lemma RowWhenSteady(world: World, before: seq<Event>, trace: seq<Event>, aim: Aim)
    requires Steady(world, before, aim) && Quiet(before, trace)
    ensures RowSeen(world, trace, aim).value == RegisteredRow(world(before), aim)
    ensures Quiet(before, RowSeen(world, trace, aim).trace)
  {
    var looked := After(trace, Symlink(aim.target));
    var listed := After(looked, Worktrees);
    assert Quiet(before, looked) && Quiet(before, listed) && Quiet(before, After(listed, CommonDir));
  }

  lemma ConditionWhenSteady(world: World, before: seq<Event>, trace: seq<Event>, aim: Aim)
    requires Steady(world, before, aim) && Quiet(before, trace)
    ensures ConditionSeen(world, trace, aim.target).value == Condition(world(before), aim.target)
  {
    var looked := After(trace, Present(aim.target));
    assert Quiet(before, looked) && Quiet(before, After(looked, Status(aim.target)));
    CensusWhenSteady(world, before, After(looked, Status(aim.target)), aim);
  }

  lemma DetailsWhenSteady(world: World, identify: string -> string, before: seq<Event>, trace: seq<Event>, aim: Aim,
                          row: Registrations.Row)
    requires Steady(world, before, aim) && Quiet(before, trace)
    ensures DetailsSeen(world, identify, trace, aim, row).value == Details(world(before), identify, aim, row)
  {
    var resolved := After(trace, Revision(aim.custody));
    var reported := After(resolved, Report(aim.references));
    assert Quiet(before, resolved) && Quiet(before, reported);
    ConditionWhenSteady(world, before, reported, aim);
  }

  /** The observation of a steady host is that of its state. */
  lemma ObservationWhenSteady(world: World, identify: string -> string, before: seq<Event>, trace: seq<Event>, aim: Aim)
    requires Quiet(before, trace)
    ensures Steady(world, before, aim) ==>
              ObservationSeen(world, identify, trace, aim).value == Observed(world(before), identify, aim)
  {
    if Steady(world, before, aim) {
      RowWhenSteady(world, before, trace, aim);
      var row := RowSeen(world, trace, aim);
      if row.value.Ok? {
        DetailsWhenSteady(world, identify, before, row.trace, aim, row.value.value);
      }
    }
  }

  // ------------------------------------------------------------------------ states alike

  lemma {:induction false} SurfacesAlike(a: Snapshot, b: Snapshot, pid: int, surfaces: seq<Surface>, target: string)
    requires SameProcesses(a, b, target)
    ensures ScanSurfaces(a, pid, surfaces, target) == ScanSurfaces(b, pid, surfaces, target)
  {
    if surfaces != [] {
      assert SameSurface(a, b, pid, surfaces[0], target);
      SurfacesAlike(a, b, pid, surfaces[1..], target);
    }
  }

  lemma {:induction false} PidsAlike(a: Snapshot, b: Snapshot, pids: seq<int>, target: string)
    requires SameProcesses(a, b, target)
    ensures ScanPids(a, pids, target) == ScanPids(b, pids, target)
  {
    if pids != [] {
      SurfacesAlike(a, b, pids[0], SURFACES, target);
      PidsAlike(a, b, pids[1..], target);
    }
  }

  lemma ConditionAlike(a: Snapshot, b: Snapshot, aim: Aim)
    requires Alike(a, b, aim)
    ensures Condition(a, aim.target) == Condition(b, aim.target)
  {
    if a.pids.Ok? {
      PidsAlike(a, b, a.pids.value, aim.target);
    }
  }

  lemma RowAlike(a: Snapshot, b: Snapshot, aim: Aim)
    requires Alike(a, b, aim)
    ensures RegisteredRow(a, aim) == RegisteredRow(b, aim)
  {
  }

  lemma ObservedAlike(a: Snapshot, b: Snapshot, identify: string -> string, aim: Aim)
    requires Alike(a, b, aim)
    ensures Observed(a, identify, aim) == Observed(b, identify, aim)
  {
    RowAlike(a, b, aim);
    ConditionAlike(a, b, aim);
  }
}
