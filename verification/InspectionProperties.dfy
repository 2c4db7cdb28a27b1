/** What the readings were that an observation was made of, on a host that may change between
    any two of them. */
module InspectionProperties {
  import opened Values
  import opened Observation
  import opened Inspection
  import Registrations

  // ------------------------------------------------------------------------- the census

  predicate ReadsLinks(event: Event) {
    event.Looked? && event.query.Links?
  }

  /** Step `i` read the links of a surface, and they neither pointed into the target nor hid
      anything: what was missing was so because the process was seen to be gone. */
  ghost predicate ClearReading(world: World, trace: seq<Event>, i: nat, target: string)
    requires i < |trace| && ReadsLinks(trace[i])
  {
    var query := trace[i].query;
    var links := world(trace[..i]).links(query.pid, query.surface);
    && ClearLinks(links, world(trace[..i + 1]).alive(query.pid), target)
    && (EndsMissing(links) ==> i + 1 < |trace| && trace[i + 1] == Looked(Alive(query.pid)))
  }

  ghost predicate AllClear(world: World, trace: seq<Event>, from: nat, to: nat, target: string)
    requires to <= |trace|
  {
    forall i | from <= i < to && ReadsLinks(trace[i]) :: ClearReading(world, trace, i, target)
  }

  ghost predicate LooksAt(trace: seq<Event>, from: nat, to: nat, pid: int, surface: Surface)
    requires to <= |trace|
  {
    exists i :: from <= i < to && trace[i] == Looked(Links(pid, surface))
  }

  lemma AllClearOn(world: World, trace: seq<Event>, from: nat, mid: nat, to: nat, target: string)
    requires from <= mid <= to <= |trace|
    ensures AllClear(world, trace, from, to, target) <==>
              AllClear(world, trace, from, mid, target) && AllClear(world, trace, mid, to, target)
  {
  }

  lemma LooksAtOn(trace: seq<Event>, from: nat, to: nat, from': nat, to': nat, pid: int, surface: Surface)
    requires from' <= from && to <= to' <= |trace|
    ensures LooksAt(trace, from, to, pid, surface) ==> LooksAt(trace, from', to', pid, surface)
  {
  }

  lemma NextLook(before: seq<Event>, query: Query, whole: seq<Event>, trace: seq<Event>)
    requires After(before, query) <= whole <= trace
    ensures |before| < |trace| && trace[|before|] == Looked(query) && trace[..|before|] == before
    ensures before <= trace && After(before, query) <= trace
  {
    assert trace[|before|] == After(before, query)[|before|];
  }

  lemma LinksRead(world: World, before: seq<Event>, pid: int, surface: Surface, target: string, trace: seq<Event>)
    requires LinksSeen(world, before, pid, surface, target).trace <= trace
    ensures var seen := LinksSeen(world, before, pid, surface, target);
      && LooksAt(trace, |before|, |seen.trace|, pid, surface)
      && (seen.value == Scan([], []) <==> AllClear(world, trace, |before|, |seen.trace|, target))
  {
    var seen := LinksSeen(world, before, pid, surface, target);
    var read := After(before, Links(pid, surface));
    var links := world(before).links(pid, surface);
    assert trace[|before|] == seen.trace[|before|] == Looked(Links(pid, surface));
    assert trace[..|before|] == before && trace[..|before| + 1] == read;
    if EndsMissing(links) {
      assert trace[|before| + 1] == seen.trace[|before| + 1] == Looked(Alive(pid));
    }
    ScanLinksClear(links, world(read).alive(pid), pid, surface, target);
    assert seen.value == Scan([], []) <==> ClearReading(world, trace, |before|, target);
  }

  lemma {:induction false} SurfacesRead(world: World, before: seq<Event>, pid: int, surfaces: seq<Surface>, target: string,
                                        trace: seq<Event>)
    requires SurfacesSeen(world, before, pid, surfaces, target).trace <= trace
    ensures var seen := SurfacesSeen(world, before, pid, surfaces, target);
      && |before| <= |seen.trace|
      && (forall surface | surface in surfaces :: LooksAt(trace, |before|, |seen.trace|, pid, surface))
      && (seen.value == Scan([], []) <==> AllClear(world, trace, |before|, |seen.trace|, target))
    decreases |surfaces|
  {
    if surfaces != [] {
      var first := LinksSeen(world, before, pid, surfaces[0], target);
      var seen := SurfacesSeen(world, first.trace, pid, surfaces[1..], target);
      SurfacesOnlyLooks(world, first.trace, pid, surfaces[1..], target);
      LinksRead(world, before, pid, surfaces[0], target, trace);
      SurfacesRead(world, first.trace, pid, surfaces[1..], target, trace);
      AllClearOn(world, trace, |before|, |first.trace|, |seen.trace|, target);
      PlusEmpty(first.value, seen.value);
      forall surface | surface in surfaces ensures LooksAt(trace, |before|, |seen.trace|, pid, surface) {
        LooksAtOn(trace, |before|, |first.trace|, |before|, |seen.trace|, pid, surface);
        LooksAtOn(trace, |first.trace|, |seen.trace|, |before|, |seen.trace|, pid, surface);
        assert surface == surfaces[0] || surface in surfaces[1..];
      }
    }
  }

  lemma {:induction false} PidsRead(world: World, before: seq<Event>, pids: seq<int>, target: string, trace: seq<Event>)
    requires PidsSeen(world, before, pids, target).trace <= trace
    ensures var seen := PidsSeen(world, before, pids, target);
      && |before| <= |seen.trace|
      && (forall pid, surface | pid in pids && surface in SURFACES :: LooksAt(trace, |before|, |seen.trace|, pid, surface))
      && (seen.value == Scan([], []) <==> AllClear(world, trace, |before|, |seen.trace|, target))
    decreases |pids|
  {
    if pids != [] {
      var first := SurfacesSeen(world, before, pids[0], SURFACES, target);
      var seen := PidsSeen(world, first.trace, pids[1..], target);
      PidsOnlyLooks(world, first.trace, pids[1..], target);
      SurfacesRead(world, before, pids[0], SURFACES, target, trace);
      PidsRead(world, first.trace, pids[1..], target, trace);
      AllClearOn(world, trace, |before|, |first.trace|, |seen.trace|, target);
      PlusEmpty(first.value, seen.value);
      forall pid, surface | pid in pids && surface in SURFACES ensures LooksAt(trace, |before|, |seen.trace|, pid, surface) {
        LooksAtOn(trace, |before|, |first.trace|, |before|, |seen.trace|, pid, surface);
        LooksAtOn(trace, |first.trace|, |seen.trace|, |before|, |seen.trace|, pid, surface);
        assert pid == pids[0] || pid in pids[1..];
      }
    }
  }

  /** The steps `at` to `end` are a census that has read every surface of every listed process. */
  ghost predicate CensusTaken(world: World, trace: seq<Event>, at: nat, end: nat, target: string)
    requires end <= |trace|
  {
    && at < end && trace[at] == Looked(Pids) && world(trace[..at]).pids.Ok?
    && forall pid, surface | pid in world(trace[..at]).pids.value && surface in SURFACES :: LooksAt(trace, at + 1, end, pid, surface)
  }

  /** Whatever comes and goes meanwhile: a census is complete and free of references exactly
      when the processes were listed and every reading of links was clear when it was made, and
      then every surface of every listed process has been read. */
  lemma CensusReadings(world: World, before: seq<Event>, target: string, trace: seq<Event>)
    requires CensusSeen(world, before, target).trace <= trace
    ensures var seen := CensusSeen(world, before, target);
      && After(before, Pids) <= seen.trace
      && (seen.value.complete && seen.value.references == [] <==>
            && CensusTaken(world, trace, |before|, |seen.trace|, target)
            && AllClear(world, trace, |before|, |seen.trace|, target))
  {
    var seen := CensusSeen(world, before, target);
    var listed := After(before, Pids);
    if world(before).pids.Ok? {
      var pids := world(before).pids.value;
      PidsOnlyLooks(world, listed, pids, target);
      NextLook(before, Pids, seen.trace, trace);
      PidsRead(world, listed, pids, target, trace);
      AllClearOn(world, trace, |before|, |listed|, |seen.trace|, target);
    } else {
      NextLook(before, Pids, seen.trace, trace);
    }
  }

  // -------------------------------------------------------------------- the observation

  ghost predicate RegisteredOnce(rows: seq<Registrations.Row>, target: string, row: Registrations.Row) {
    exists k :: OnlyRow(rows, k, target) && rows[k] == row
  }

  /** Steps `at` to `at + 2`: no symlink, one registration, and no protected checkout. */
  ghost predicate RowRead(world: World, trace: seq<Event>, at: nat, aim: Aim, row: Registrations.Row) {
    && at + 3 <= |trace|
    && trace[at] == Looked(Symlink(aim.target)) && !world(trace[..at]).symlink(aim.target)
    && "refs/custody/" <= aim.custody
    && trace[at + 1] == Looked(Worktrees) && world(trace[..at + 1]).porcelain.Ok?
    && RegisteredOnce(Registrations.Parse(world(trace[..at + 1]).porcelain.value), aim.target, row)
    && trace[at + 2] == Looked(CommonDir) && world(trace[..at + 2]).primary.Ok?
    && aim.target != world(trace[..at + 2]).primary.value && aim.target != aim.repo
  }

  /** The custody ref was there. */
  ghost predicate RevisionRead(world: World, trace: seq<Event>, at: nat, aim: Aim, head: string) {
    at < |trace| && trace[at] == Looked(Revision(aim.custody)) && world(trace[..at]).revisions(aim.custody) == Ok(head)
  }

  ghost predicate ReviewRead(world: World, trace: seq<Event>, at: nat, aim: Aim, review: Review) {
    && at < |trace| && trace[at] == Looked(Report(aim.references)) && world(trace[..at]).report(aim.references).Ok?
    && ReportSays(world(trace[..at]).report(aim.references).value, aim.repo, aim.target, review)
  }

  /** Steps `at` to `end`: the target is there or not, and if it is, clean and with a census
      that is clear. */
  ghost predicate ConditionRead(world: World, trace: seq<Event>, at: nat, end: nat, aim: Aim, present: bool)
    requires end <= |trace|
  {
    && at < end && trace[at] == Looked(Present(aim.target)) && world(trace[..at]).present(aim.target) == present
    && if !present then end == at + 1
       else
         && at + 2 < end && trace[at + 1] == Looked(Status(aim.target)) && world(trace[..at + 1]).status(aim.target) == Ok([])
         && CensusTaken(world, trace, at + 2, end, aim.target) && AllClear(world, trace, at + 2, end, aim.target)
  }

  /** From `at` to `end` custody, review and condition were read, and spoke for retiring it. */
  ghost predicate DetailsRead(world: World, trace: seq<Event>, at: nat, end: nat, aim: Aim, row: Registrations.Row, entry: Entry)
    requires end <= |trace|
  {
    && "locked" !in row && (if "HEAD" in row then row["HEAD"] == entry.head else entry.head == "")
    && RevisionRead(world, trace, at, aim, entry.head)
    && ReviewRead(world, trace, at + 1, aim, entry.review) && entry.review.complete && !entry.review.referenced
    && ConditionRead(world, trace, at + 2, end, aim, entry.present)
  }

  /** From `at` to `end` the target was read afresh, and every reading spoke for retiring it
      when it was made. */
  ghost predicate SpokenFor(world: World, trace: seq<Event>, at: nat, end: nat, aim: Aim, entry: Entry)
    requires end <= |trace|
  {
    exists row :: RowRead(world, trace, at, aim, row) && DetailsRead(world, trace, at + 3, end, aim, row, entry)
  }

  lemma RowReadings(world: World, before: seq<Event>, aim: Aim, trace: seq<Event>)
    requires RowSeen(world, before, aim).value.Ok? && RowSeen(world, before, aim).trace <= trace
    ensures |RowSeen(world, before, aim).trace| == |before| + 3
    ensures RowRead(world, trace, |before|, aim, RowSeen(world, before, aim).value.value)
  {
    var seen := RowSeen(world, before, aim);
    var looked := After(before, Symlink(aim.target));
    var listed := After(looked, Worktrees);
    assert seen.trace == After(listed, CommonDir);
    MatchingRowsIs(Registrations.Parse(world(looked).porcelain.value), aim.target);
    NextLook(listed, CommonDir, seen.trace, trace);
    NextLook(looked, Worktrees, listed, trace);
    NextLook(before, Symlink(aim.target), looked, trace);
  }

  lemma ConditionReadings(world: World, before: seq<Event>, aim: Aim, trace: seq<Event>)
    requires ConditionSeen(world, before, aim.target).value.Ok? && ConditionSeen(world, before, aim.target).trace <= trace
    ensures var seen := ConditionSeen(world, before, aim.target);
      var (present, state, processes) := seen.value.value;
      state == [] && processes.complete && processes.references == [] ==>
        ConditionRead(world, trace, |before|, |seen.trace|, aim, present)
  {
    var seen := ConditionSeen(world, before, aim.target);
    var looked := After(before, Present(aim.target));
    if world(before).present(aim.target) {
      var read := After(looked, Status(aim.target));
      CensusOnlyLooks(world, read, aim.target);
      NextLook(looked, Status(aim.target), seen.trace, trace);
      NextLook(before, Present(aim.target), looked, trace);
      CensusReadings(world, read, aim.target, trace);
    } else {
      NextLook(before, Present(aim.target), seen.trace, trace);
    }
  }

  lemma DetailsReadings(world: World, identify: string -> string, before: seq<Event>, aim: Aim, row: Registrations.Row,
                        trace: seq<Event>)
    requires DetailsSeen(world, identify, before, aim, row).value.Ok?
    requires DetailsSeen(world, identify, before, aim, row).trace <= trace
    requires Retirable(DetailsSeen(world, identify, before, aim, row).value.value)
    ensures var seen := DetailsSeen(world, identify, before, aim, row);
      DetailsRead(world, trace, |before|, |seen.trace|, aim, row, seen.value.value)
  {
    var resolved := After(before, Revision(aim.custody));
    var reported := After(resolved, Report(aim.references));
    ConditionOnlyLooks(world, reported, aim.target);
    ReferenceReviewIs(world(resolved).report(aim.references).value, aim.repo, aim.target,
                      DetailsSeen(world, identify, before, aim, row).value.value.review);
    NextLook(resolved, Report(aim.references), reported, trace);
    NextLook(before, Revision(aim.custody), resolved, trace);
    ConditionReadings(world, reported, aim, trace);
  }

  lemma LooksBetween(trace: seq<Event>, from: nat, to: nat)
    requires from <= to <= |trace| && OnlyLooks(trace[..from], trace[..to])
    ensures forall i | from <= i < to :: trace[i].Looked?
  {
    assert forall i | from <= i < to :: trace[i] == trace[..to][i];
  }

  /** An observation that makes the target eligible has read all there is to read of it, in
      the steps that it took, and each reading spoke for retiring it. */
  lemma EligibleReadings(world: World, identify: string -> string, trace: seq<Event>, from: nat, to: nat, aim: Aim, entry: Entry)
    requires ObservedBetween(world, identify, trace, from, to, aim, entry) && entry.disposition == Eligible
    ensures SpokenFor(world, trace, from, to, aim, entry)
    ensures forall i | from <= i < to :: trace[i].Looked?
  {
    var before := trace[..from];
    assert ObservationSeen(world, identify, before, aim) == Seen(trace[..to], Ok(entry));
    var row := RowSeen(world, before, aim);
    var found := row.value.value;
    assert ObservationSeen(world, identify, before, aim) == DetailsSeen(world, identify, row.trace, aim, found);
    ObservationOnlyLooks(world, identify, before, aim);
    ObservationIsJudged(world, identify, before, aim);
    DetailsOnlyLooks(world, identify, row.trace, aim, found);
    RowReadings(world, before, aim, trace);
    DetailsReadings(world, identify, row.trace, aim, found, trace);
    LooksBetween(trace, from, to);
  }
}
