/** What scripts/cleanup_worktrees.py observes of a worktree before it may be retired:
    `census`, `reference_review` and `observe`, on a host that does not change meanwhile. */
module Observation {
  import Word
  import opened Values
  import Registrations

  // ------------------------------------------------------------------- the system

  /** The links under /proc of a process. */
  datatype Surface = Cwd | Exe | Fd

  datatype ReportFile = ReportFile(symlink: bool, regular: bool, owned: bool, writable: bool,
                                   sha256: string, content: Result<Json>)

  /** The state of the host at one moment, as the script can read it. `links(pid, surface)`
      are the results of reading the links of a process surface one after the other. */
  datatype Snapshot = Snapshot(porcelain: Result<string>, toplevel: Result<string>, primary: Result<string>, common: Result<string>,
                               revisions: string -> Result<string>, report: string -> Result<ReportFile>,
                               symlink: string -> bool, present: string -> bool, status: string -> Result<string>,
                               pids: Result<seq<int>>, links: (int, Surface) -> seq<Result<string>>, alive: int -> bool,
                               resolve: string -> string)

  datatype Query =
    | Resolve(path: string)
    | Toplevel
    | AbsoluteCommonDir
    | Symlink(path: string)
    | Worktrees
    | CommonDir
    | Revision(ref: string)
    | Report(path: string)
    | Present(path: string)
    | Status(path: string)
    | Pids
    | Links(pid: int, surface: Surface)
    | Alive(pid: int)

  /** What an observation is of: a worktree of a repository, its custody ref, and the report
      on the references to it. */
  datatype Aim = Aim(repo: string, target: string, custody: string, references: string)

  // ------------------------------------------------------------------------ census

  /** What is read of each process, in this order. */
  const SURFACES: seq<Surface> := [Cwd, Exe, Fd]

  datatype Reference = Reference(pid: int, surface: Surface)

  datatype Unread = ProcUnavailable | Unread(pid: int, surface: Surface)

  datatype Census = Census(complete: bool, references: seq<Reference>, unknown: seq<Unread>)

  /** A path is the directory or lies below it. */
  predicate Within(value: string, dir: string) {
    value == dir || (|value| > |dir| && value[..|dir| + 1] == dir + "/")
  }

  /** To be within is to be the directory, or to go on from it behind a slash. */
  lemma WithinIs(value: string, dir: string)
    ensures Within(value, dir) <==> value == dir || exists rest :: value == dir + "/" + rest
  {
    if Within(value, dir) && value != dir {
      assert value == dir + "/" + value[|dir| + 1..];
    }
    forall rest | value == dir + "/" + rest ensures Within(value, dir) {
      if rest == "" {
        assert value[..|dir| + 1] == dir + "/";
      }
    }
  }

  datatype Scan = Scan(references: seq<Reference>, unknown: seq<Unread>) {
    function Plus(more: Scan): Scan {
      Scan(references + more.references, unknown + more.unknown)
    }
  }

  /** The links of one surface from `links[0]` on; the first that cannot be read ends it,
      and a missing one counts only while the process is alive. */
  function ScanLinks(links: seq<Result<string>>, alive: bool, pid: int, surface: Surface, target: string): Scan {
    if links == [] then Scan([], [])
    else match links[0]
      case Ok(value) =>
        Scan(if Within(value, target) then [Reference(pid, surface)] else [], [])
          .Plus(ScanLinks(links[1..], alive, pid, surface, target))
      case Err(e) =>
        Scan([], if e == FileNotFound && !alive then [] else [Unread(pid, surface)])
  }

  function ScanSurface(s: Snapshot, pid: int, surface: Surface, target: string): Scan {
    ScanLinks(s.links(pid, surface), s.alive(pid), pid, surface, target)
  }

  function ScanSurfaces(s: Snapshot, pid: int, surfaces: seq<Surface>, target: string): Scan {
    if surfaces == [] then Scan([], [])
    else ScanSurface(s, pid, surfaces[0], target).Plus(ScanSurfaces(s, pid, surfaces[1..], target))
  }

  function ScanPids(s: Snapshot, pids: seq<int>, target: string): Scan {
    if pids == [] then Scan([], [])
    else ScanSurfaces(s, pids[0], SURFACES, target).Plus(ScanPids(s, pids[1..], target))
  }

  /** The census of an unchanging system. */
  function CensusOf(s: Snapshot, target: string): Census {
    match s.pids
    case Err(_) => Census(false, [], [ProcUnavailable])
    case Ok(pids) =>
      var scan := ScanPids(s, pids, target);
      Census(scan.unknown == [], scan.references, scan.unknown)
  }

  /** The links before `links[j]` can be read. */
  ghost predicate ReadTo(links: seq<Result<string>>, j: nat) {
    forall i | 0 <= i < j && i < |links| :: links[i].Ok?
  }

  predicate ClearLink(link: Result<string>, alive: bool, target: string) {
    match link
    case Ok(value) => !Within(value, target)
    case Err(e) => e == FileNotFound && !alive
  }

  /** Every link up to the first that cannot be read points elsewhere, and that one is
      gone together with its process. */
  ghost predicate ClearLinks(links: seq<Result<string>>, alive: bool, target: string) {
    forall j | 0 <= j < |links| && ReadTo(links, j) :: ClearLink(links[j], alive, target)
  }

  /** A surface that holds no reference and hides none. */
  ghost predicate Clear(s: Snapshot, pid: int, surface: Surface, target: string) {
    ClearLinks(s.links(pid, surface), s.alive(pid), target)
  }

  /** What is reported of a surface: a reference for every link that was read and points into the
      target, and something unread if the links end with one that cannot be passed over. */
  lemma {:induction false} ScanLinksTells(links: seq<Result<string>>, alive: bool, pid: int, surface: Surface, target: string)
    ensures var scan := ScanLinks(links, alive, pid, surface, target);
      && (forall r | r in scan.references :: r == Reference(pid, surface))
      && (scan.references != [] <==> exists j :: Refers(links, j, target))
      && scan.unknown == if exists j :: Hides(links, j, alive) then [Unread(pid, surface)] else []
  {
    if links != [] {
      var rest := links[1..];
      assert forall j | 0 < j < |links| :: links[j] == rest[j - 1];
      if links[0].Ok? {
        ScanLinksTells(rest, alive, pid, surface, target);
        forall j ensures Refers(rest, j, target) <==> j >= 0 && Refers(links, j + 1, target) {
          if 0 <= j < |rest| {
            ReadToMore(links, j);
          }
        }
        forall j ensures Hides(rest, j, alive) <==> j >= 0 && Hides(links, j + 1, alive) {
          if 0 <= j < |rest| {
            ReadToMore(links, j);
          }
        }
        assert Refers(links, 0, target) <==> Within(links[0].value, target);
        forall j | Refers(links, j, target) && j > 0 ensures Refers(rest, j - 1, target) {
        }
        forall j | Hides(links, j, alive) ensures j > 0 && Hides(rest, j - 1, alive) {
        }
      } else {
        assert Hides(links, 0, alive) <==> !(links[0].error == FileNotFound && !alive);
      }
    }
  }

  /** Link `j` was read, and points into the target. */
  ghost predicate Refers(links: seq<Result<string>>, j: int, target: string) {
    0 <= j < |links| && ReadTo(links, j) && links[j].Ok? && Within(links[j].value, target)
  }

  /** Link `j` is the first that could not be read, and not for the process being gone. */
  ghost predicate Hides(links: seq<Result<string>>, j: int, alive: bool) {
    0 <= j < |links| && ReadTo(links, j) && links[j].Err? && !(links[j].error == FileNotFound && !alive)
  }

  lemma ReadToMore(links: seq<Result<string>>, j: nat)
    requires links != [] && links[0].Ok?
    ensures ReadTo(links[1..], j) <==> ReadTo(links, j + 1)
  {
    if ReadTo(links[1..], j) {
      forall i | 0 < i < j + 1 && i < |links| ensures links[i].Ok? {
        assert links[i] == links[1..][i - 1];
      }
    }
  }

  lemma ClearLinksMore(links: seq<Result<string>>, alive: bool, target: string)
    requires links != [] && links[0].Ok?
    ensures ClearLinks(links, alive, target) <==> ClearLink(links[0], alive, target) && ClearLinks(links[1..], alive, target)
  {
    forall j | 0 <= j < |links| - 1 ensures ReadTo(links[1..], j) <==> ReadTo(links, j + 1) {
      ReadToMore(links, j);
    }
    if ClearLinks(links, alive, target) {
      assert ReadTo(links, 0);
      forall j | 0 <= j < |links[1..]| && ReadTo(links[1..], j) ensures ClearLink(links[1..][j], alive, target) {
        assert ReadTo(links, j + 1);
      }
    }
    if ClearLink(links[0], alive, target) && ClearLinks(links[1..], alive, target) {
      forall j | 0 <= j < |links| && ReadTo(links, j) ensures ClearLink(links[j], alive, target) {
        if j > 0 {
          ReadToMore(links, j - 1);
          assert ClearLink(links[1..][j - 1], alive, target);
        }
      }
    }
  }

  lemma {:induction false} ScanLinksClear(links: seq<Result<string>>, alive: bool, pid: int, surface: Surface, target: string)
    ensures ScanLinks(links, alive, pid, surface, target) == Scan([], []) <==> ClearLinks(links, alive, target)
  {
    if links != [] {
      assert ReadTo(links, 0);
      if links[0].Ok? {
        ScanLinksClear(links[1..], alive, pid, surface, target);
        ClearLinksMore(links, alive, target);
      }
    }
  }

  lemma PlusEmpty(a: Scan, b: Scan)
    ensures a.Plus(b) == Scan([], []) <==> a == Scan([], []) && b == Scan([], [])
  {
    assert |a.Plus(b).references| == |a.references| + |b.references|;
    assert |a.Plus(b).unknown| == |a.unknown| + |b.unknown|;
  }

  lemma {:induction false} ScanSurfacesClear(s: Snapshot, pid: int, surfaces: seq<Surface>, target: string)
    ensures ScanSurfaces(s, pid, surfaces, target) == Scan([], []) <==>
              forall surface | surface in surfaces :: Clear(s, pid, surface, target)
  {
    if surfaces != [] {
      ScanLinksClear(s.links(pid, surfaces[0]), s.alive(pid), pid, surfaces[0], target);
      ScanSurfacesClear(s, pid, surfaces[1..], target);
      PlusEmpty(ScanSurface(s, pid, surfaces[0], target), ScanSurfaces(s, pid, surfaces[1..], target));
      assert surfaces[0] in surfaces;
      forall x | x in surfaces[1..] ensures x in surfaces {
      }
      forall x | x in surfaces && x != surfaces[0] ensures x in surfaces[1..] {
      }
    }
  }

  lemma {:induction false} ScanPidsClear(s: Snapshot, pids: seq<int>, target: string)
    ensures ScanPids(s, pids, target) == Scan([], []) <==>
              forall pid, surface | pid in pids && surface in SURFACES :: Clear(s, pid, surface, target)
  {
    if pids != [] {
      ScanSurfacesClear(s, pids[0], SURFACES, target);
      ScanPidsClear(s, pids[1..], target);
      PlusEmpty(ScanSurfaces(s, pids[0], SURFACES, target), ScanPids(s, pids[1..], target));
      assert forall x :: x in pids <==> x == pids[0] || x in pids[1..];
    }
  }

  /** No inaccessible observation is dropped: a census is complete and free of references
      exactly when every surface of every process is clear. */
  lemma CensusDropsNothing(s: Snapshot, target: string)
    ensures var c := CensusOf(s, target);
      c.complete && c.references == [] <==>
        s.pids.Ok? && forall pid, surface | pid in s.pids.value && surface in SURFACES :: Clear(s, pid, surface, target)
  {
    if s.pids.Ok? {
      ScanPidsClear(s, s.pids.value, target);
    }
  }

  // -------------------------------------------------------------- reference review

  datatype Review = Review(sha256: string, complete: bool, owner: Json, referenced: bool)

  const REFERENCE_KINDS: seq<Word.Token> := [Word.ServiceReferences, Word.BuildReferences, Word.EvidenceReferences]

  predicate ListOfNames(value: Json) {
    value.Arr? && forall item | item in value.items :: item.Str?
  }

  /** The entries about `target`; an entry that is not an object raises. */
  function EntriesFor(entries: seq<Json>, target: string): (r: Result<seq<Json>>)
    ensures r.Ok? ==> forall entry | entry in r.value :: entry.Obj?
  {
    if entries == [] then Ok([])
    else if !entries[0].Obj? then Err(Malformed)
    else
      var rest :- EntriesFor(entries[1..], target);
      Ok((if Get(entries[0], Word.Path) == Str(Word.Other(target)) then [entries[0]] else []) + rest)
  }

  function ReferenceReview(file: ReportFile, repo: string, target: string): Result<Review> {
    var trusted := !file.symlink && file.regular && file.owned && !file.writable;
    :- Require(trusted);
    var report :- file.content;
    :- Require(report.Obj? && Get(report, Word.Repository) == Str(Word.Other(repo)));
    var all :- IndexList(report, Word.Entries);
    var entries :- EntriesFor(all, target);
    :- Require(|entries| == 1);
    var row := entries[0];
    var complete := Get(row, Word.Reviewed) == Bool(true) && NonemptyStr(Get(row, Word.Owner))
                    && forall k | k in REFERENCE_KINDS :: ListOfNames(Get(row, k));
    Ok(Review(file.sha256, complete, if Word.Owner in row.fields then row.fields[Word.Owner] else Str(Word.Other("unknown")),
              exists k | k in REFERENCE_KINDS :: Truthy(Get(row, k))))
  }

  // ------------------------------------------- what a review says, in the fields of the report

  /** Entry `k` is the only one about the target, and every entry is an object. */
  ghost predicate OnlyEntry(entries: seq<Json>, k: int, target: string) {
    && 0 <= k < |entries| && Has(entries[k], Word.Path, Str(Word.Other(target)))
    && forall j | 0 <= j < |entries| :: entries[j].Obj? && (j != k ==> !Has(entries[j], Word.Path, Str(Word.Other(target))))
  }

  ghost predicate NoEntry(entries: seq<Json>, target: string) {
    forall j | 0 <= j < |entries| :: entries[j].Obj? && !Has(entries[j], Word.Path, Str(Word.Other(target)))
  }

  lemma OneEntryMore(entries: seq<Json>, target: string)
    requires entries != []
    ensures var first, rest := entries[0], entries[1..];
      var named := Has(first, Word.Path, Str(Word.Other(target)));
      && (NoEntry(entries, target) <==> first.Obj? && !named && NoEntry(rest, target))
      && (OnlyEntry(entries, 0, target) <==> named && NoEntry(rest, target))
      && (forall k | OnlyEntry(entries, k, target) && k > 0 :: first.Obj? && !named && OnlyEntry(rest, k - 1, target))
      && (first.Obj? && !named ==> forall k | OnlyEntry(rest, k, target) :: OnlyEntry(entries, k + 1, target))
  {
    var rest := entries[1..];
    assert forall j | 0 < j < |entries| :: entries[j] == rest[j - 1];
    forall k | OnlyEntry(entries, k, target) && k > 0 ensures OnlyEntry(rest, k - 1, target) {
      assert forall j | 0 <= j < |rest| :: rest[j] == entries[j + 1];
    }
  }

  lemma {:induction false} EntriesForIs(entries: seq<Json>, target: string)
    ensures EntriesFor(entries, target) == Ok([]) <==> NoEntry(entries, target)
    ensures EntriesFor(entries, target).Ok? && |EntriesFor(entries, target).value| == 1 <==> exists k :: OnlyEntry(entries, k, target)
    ensures forall k | OnlyEntry(entries, k, target) :: EntriesFor(entries, target) == Ok([entries[k]])
  {
    if entries != [] {
      var first, rest := entries[0], entries[1..];
      var named := Has(first, Word.Path, Str(Word.Other(target)));
      EntriesForIs(rest, target);
      OneEntryMore(entries, target);
      if first.Obj? && EntriesFor(rest, target).Ok? {
        assert EntriesFor(entries, target) == Ok((if named then [first] else []) + EntriesFor(rest, target).value);
      }
      forall k | OnlyEntry(entries, k, target) ensures EntriesFor(entries, target) == Ok([entries[k]]) {
        if k > 0 {
          assert OnlyEntry(rest, k - 1, target) && rest[k - 1] == entries[k];
          assert [] + [entries[k]] == [entries[k]];
        } else {
          assert OnlyEntry(entries, 0, target) && NoEntry(rest, target);
          assert [first] + [] == [first];
        }
      }
      if EntriesFor(entries, target).Ok? && |EntriesFor(entries, target).value| == 1 {
        if !named {
          var k :| OnlyEntry(rest, k, target);
          assert OnlyEntry(entries, k + 1, target);
        } else {
          assert EntriesFor(rest, target).value == [];
          assert OnlyEntry(entries, 0, target);
        }
      }
    }
  }

  /** The field is there and not empty. */
  predicate Filled(row: Json, key: Word.Token) {
    HasKey(row, key) && Truthy(row.fields[key])
  }

  /** The field is a list of strings. */
  predicate ListsNames(row: Json, key: Word.Token) {
    HasKey(row, key) && row.fields[key].Arr? && forall item | item in row.fields[key].items :: item.Str?
  }

  /** What is made of the one entry about the target. */
  predicate SaidOf(row: Json, review: Review) {
    && (review.referenced <==>
          Filled(row, Word.ServiceReferences) || Filled(row, Word.BuildReferences) || Filled(row, Word.EvidenceReferences))
    && (review.complete <==>
          && Has(row, Word.Reviewed, Bool(true))
          && HasKey(row, Word.Owner) && row.fields[Word.Owner].Str? && row.fields[Word.Owner] != Str(Word.Other(""))
          && ListsNames(row, Word.ServiceReferences) && ListsNames(row, Word.BuildReferences)
          && ListsNames(row, Word.EvidenceReferences))
    && (if HasKey(row, Word.Owner) then Has(row, Word.Owner, review.owner) else review.owner == Str(Word.Other("unknown")))
  }

  /** The file can be trusted, it is the report of this repository, it has one entry about the
      target, and the review is what that entry says. */
  ghost predicate ReportSays(file: ReportFile, repo: string, target: string, review: Review) {
    && !file.symlink && file.regular && file.owned && !file.writable
    && file.content.Ok? && Has(file.content.value, Word.Repository, Str(Word.Other(repo)))
    && HasKey(file.content.value, Word.Entries) && file.content.value.fields[Word.Entries].Arr?
    && review.sha256 == file.sha256
    && var entries := file.content.value.fields[Word.Entries].items;
    exists k :: OnlyEntry(entries, k, target) && SaidOf(entries[k], review)
  }

  lemma SaidOfIs(row: Json, sha256: string, review: Review)
    requires row.Obj?
    ensures SaidOf(row, review) && review.sha256 == sha256 <==>
              review == Review(sha256,
                               Get(row, Word.Reviewed) == Bool(true) && NonemptyStr(Get(row, Word.Owner))
                               && forall k | k in REFERENCE_KINDS :: ListOfNames(Get(row, k)),
                               if Word.Owner in row.fields then row.fields[Word.Owner] else Str(Word.Other("unknown")),
                               exists k | k in REFERENCE_KINDS :: Truthy(Get(row, k)))
  {
    assert forall k :: k in REFERENCE_KINDS <==> k == REFERENCE_KINDS[0] || k == REFERENCE_KINDS[1] || k == REFERENCE_KINDS[2];
    assert forall k | k in REFERENCE_KINDS :: (Truthy(Get(row, k)) <==> Filled(row, k)) && (ListOfNames(Get(row, k)) <==> ListsNames(row, k));
    assert Word.ServiceReferences in REFERENCE_KINDS && Word.BuildReferences in REFERENCE_KINDS && Word.EvidenceReferences in REFERENCE_KINDS;
  }

  /** A review is given exactly when the report says so, and is then what it says. */
  lemma ReferenceReviewIs(file: ReportFile, repo: string, target: string, review: Review)
    ensures ReferenceReview(file, repo, target) == Ok(review) <==> ReportSays(file, repo, target, review)
  {
    if file.content.Ok? && HasKey(file.content.value, Word.Entries) && file.content.value.fields[Word.Entries].Arr? {
      var entries := file.content.value.fields[Word.Entries].items;
      EntriesForIs(entries, target);
      forall k | OnlyEntry(entries, k, target)
        ensures ReferenceReview(file, repo, target) == Ok(review) <==> ReportSays(file, repo, target, review)
      {
        assert EntriesFor(entries, target) == Ok([entries[k]]);
        SaidOfIs(entries[k], file.sha256, review);
        forall j | OnlyEntry(entries, j, target) ensures j == k {
        }
      }
    }
  }

  // ------------------------------------------------------------------ observation

  /** The words of an entry; an altered plan may hold any other text in their place. */
  datatype Reason =
    | CustodyMismatch
    | RegistrationLocked
    | DirtyOrIgnored
    | ReviewIncomplete
    | ReviewInUse
    | ProcessReference
    | VisibilityIncomplete
    | PendingReadback
    | EffectUnverified
    | OutcomeUnknown
    | OtherReason(text: string)

  datatype Disposition = Eligible | Retained | RetainedUnknown | Undecided | Gone | Pruned | OtherDisposition(text: string)

  datatype Action = Retain | Remove | Prune | OtherAction(text: string)

  datatype NextAction = TakeFreshCensus | ApplyApprovedPlan | RetainCustodyRef | OtherNextAction(text: string)

  datatype Entry = Entry(id: string, path: string, head: string, custody: string, custodyHead: string, present: bool,
                         state: string, locked: bool, review: Review, processes: Census, owner: Json,
                         reasons: seq<Reason>, nextAction: NextAction, action: Action, disposition: Disposition)

  function When(condition: bool, reason: Reason): seq<Reason> {
    if condition then [reason] else []
  }

  /** The entry made of what was read. */
  function Judged(id: string, target: string, custody: string, head: string, custodyHead: string, present: bool,
                  state: string, locked: bool, review: Review, processes: Census): Entry {
    var reasons := When(head != custodyHead, CustodyMismatch) + When(locked, RegistrationLocked)
                   + When(state != [], DirtyOrIgnored) + When(!review.complete, ReviewIncomplete)
                   + When(review.referenced, ReviewInUse)
                   + When(processes.references != [], ProcessReference)
                   + When(!processes.complete, VisibilityIncomplete);
    Entry(id, target, head, custody, custodyHead, present, state, locked, review, processes, review.owner, reasons,
          if reasons != [] then TakeFreshCensus else ApplyApprovedPlan,
          if reasons != [] then Retain else if present then Remove else Prune,
          if reasons == [] then Eligible
          else if !processes.complete || !review.complete then RetainedUnknown else Retained)
  }

  /** Every observation speaks for retiring the worktree. */
  predicate Retirable(e: Entry) {
    && e.head == e.custodyHead && !e.locked && e.state == []
    && e.review.complete && !e.review.referenced
    && e.processes.complete && e.processes.references == []
  }

  /** An entry is eligible exactly when nothing speaks against it, and unknown
      observations always retain the work. */
  lemma EligibleIffRetirable(id: string, target: string, custody: string, head: string, custodyHead: string, present: bool,
                             state: string, locked: bool, review: Review, processes: Census)
    ensures var e := Judged(id, target, custody, head, custodyHead, present, state, locked, review, processes);
      && (e.disposition == Eligible <==> Retirable(e))
      && (e.action == Retain <==> !Retirable(e))
      && (e.action == Remove <==> Retirable(e) && present)
      && (e.disposition == RetainedUnknown <==> !processes.complete || !review.complete)
  {
  }

  /** The entry tells what was read. */
  lemma EntryTells(id: string, target: string, custody: string, head: string, custodyHead: string, present: bool,
                   state: string, locked: bool, review: Review, processes: Census)
    ensures var e := Judged(id, target, custody, head, custodyHead, present, state, locked, review, processes);
      && e.id == id && e.path == target && e.head == head && e.custody == custody && e.custodyHead == custodyHead
      && e.present == present && e.state == state && e.locked == locked && e.review == review && e.processes == processes
      && e.owner == review.owner
      && (e.nextAction == ApplyApprovedPlan <==> e.reasons == []) && (e.nextAction == TakeFreshCensus <==> e.reasons != [])
  {
  }

  /** The reason speaks against retiring the entry. */
  predicate Holds(e: Entry, reason: Reason) {
    match reason
    case CustodyMismatch => e.head != e.custodyHead
    case RegistrationLocked => e.locked
    case DirtyOrIgnored => e.state != ""
    case ReviewIncomplete => !e.review.complete
    case ReviewInUse => e.review.referenced
    case ProcessReference => e.processes.references != []
    case VisibilityIncomplete => !e.processes.complete
    case _ => false
  }

  lemma InWhen(condition: bool, reason: Reason, other: Reason)
    ensures other in When(condition, reason) <==> condition && other == reason
  {
  }

  /** Each reason is named exactly when it holds, and no other one is. */
  lemma EveryReasonIsNamed(id: string, target: string, custody: string, head: string, custodyHead: string, present: bool,
                           state: string, locked: bool, review: Review, processes: Census, reason: Reason)
    ensures var e := Judged(id, target, custody, head, custodyHead, present, state, locked, review, processes);
      reason in e.reasons <==> Holds(e, reason)
  {
    InWhen(head != custodyHead, CustodyMismatch, reason);
    InWhen(locked, RegistrationLocked, reason);
    InWhen(state != [], DirtyOrIgnored, reason);
    InWhen(!review.complete, ReviewIncomplete, reason);
    InWhen(review.referenced, ReviewInUse, reason);
    InWhen(processes.references != [], ProcessReference, reason);
    InWhen(!processes.complete, VisibilityIncomplete, reason);
  }

  function MatchingRows(rows: seq<Registrations.Row>, target: string): (r: seq<Registrations.Row>)
    ensures r == [] <==> forall row | row in rows :: !("worktree" in row && row["worktree"] == target)
  {
    if rows == [] then []
    else (if "worktree" in rows[0] && rows[0]["worktree"] == target then [rows[0]] else []) + MatchingRows(rows[1..], target)
  }

  /** Row `k` is the only one of the target. */
  ghost predicate OnlyRow(rows: seq<Registrations.Row>, k: int, target: string) {
    && 0 <= k < |rows| && "worktree" in rows[k] && rows[k]["worktree"] == target
    && forall j | 0 <= j < |rows| && j != k :: !("worktree" in rows[j] && rows[j]["worktree"] == target)
  }

  lemma {:induction false} MatchingRowsIs(rows: seq<Registrations.Row>, target: string)
    ensures |MatchingRows(rows, target)| == 1 <==> exists k :: OnlyRow(rows, k, target)
    ensures forall k | OnlyRow(rows, k, target) :: MatchingRows(rows, target) == [rows[k]]
  {
    if rows != [] {
      var rest := rows[1..];
      var named := "worktree" in rows[0] && rows[0]["worktree"] == target;
      MatchingRowsIs(rest, target);
      assert forall j | 0 < j < |rows| :: rows[j] == rest[j - 1];
      assert forall j | 0 <= j < |rest| :: rest[j] == rows[j + 1];
      assert MatchingRows(rows, target) == (if named then [rows[0]] else []) + MatchingRows(rest, target);
      forall k | OnlyRow(rows, k, target) ensures MatchingRows(rows, target) == [rows[k]] {
        if k > 0 {
          assert OnlyRow(rest, k - 1, target) && rest[k - 1] == rows[k];
          assert [] + [rows[k]] == [rows[k]];
        } else {
          assert MatchingRows(rest, target) == [];
        }
      }
      if |MatchingRows(rows, target)| == 1 {
        if named {
          assert MatchingRows(rest, target) == [];
          assert OnlyRow(rows, 0, target);
        } else {
          var k :| OnlyRow(rest, k, target);
          assert OnlyRow(rows, k + 1, target);
        }
      }
    }
  }

  function Registered(porcelain: string, target: string): seq<Registrations.Row> {
    MatchingRows(Registrations.Parse(porcelain), target)
  }

  predicate CustodyRef(custody: string) {
    |custody| >= 13 && custody[..13] == "refs/custody/"
  }

  /** The registration of the target, which must be the only one and no protected checkout. */
  function RegisteredRow(s: Snapshot, aim: Aim): Result<Registrations.Row> {
    var allowed := CustodyRef(aim.custody) && !s.symlink(aim.target);
    :- Require(allowed);
    var porcelain :- s.porcelain;
    var rows := Registered(porcelain, aim.target);
    :- Require(|rows| == 1);
    var primary :- s.primary;
    :- Require(aim.target != primary && aim.target != aim.repo);
    Ok(rows[0])
  }

  function Reviewed(s: Snapshot, aim: Aim): Result<Review> {
    var file :- s.report(aim.references);
    ReferenceReview(file, aim.repo, aim.target)
  }

  /** The working state of the target and its census; an absent target has neither. */
  function Condition(s: Snapshot, target: string): Result<(bool, string, Census)> {
    if !s.present(target) then Ok((false, [], Census(true, [], [])))
    else
      var state :- s.status(target);
      Ok((true, state, CensusOf(s, target)))
  }

  function HeadOf(row: Registrations.Row): string {
    if "HEAD" in row then row["HEAD"] else []
  }

  /** What is read once the registration is known. */
  function Details(s: Snapshot, identify: string -> string, aim: Aim, row: Registrations.Row): Result<Entry> {
    var custodyHead :- s.revisions(aim.custody);
    var review :- Reviewed(s, aim);
    var condition :- Condition(s, aim.target);
    Ok(Judged(identify(aim.target), aim.target, aim.custody, HeadOf(row), custodyHead, condition.0, condition.1,
              "locked" in row, review, condition.2))
  }

  /** `observe` on an unchanging system. */
  function Observed(s: Snapshot, identify: string -> string, aim: Aim): Result<Entry> {
    var row :- RegisteredRow(s, aim);
    Details(s, identify, aim, row)
  }
}
