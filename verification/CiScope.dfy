/** The choice of the CI lane: `classify` of scripts/check_ci_scope.py. */
module CiScope {
  import opened Values
  import opened Text

  const NUL: string := "\0"
  const EVIDENCE: string := "docs/dev/evidence/"
  const REGULAR: string := "100644 blob "

  datatype Reason =
    | EventRequiresFull
    | ComparisonUnavailable
    | NoChanges
    | ChangeStatusRequiresFull
    | PathRequiresFull
    | FileModeRequiresFull
    | BinaryEvidenceRequiresFull

  datatype Scope = Docs | Full(reason: Reason)

  /** What git answers, decoded; `Err` is a failed command or output that is not UTF-8.
      `json` tells whether a text parses. */
  datatype Git = Git(
    commit: string -> Result<string>,
    diff: (string, string) -> Result<string>,
    tree: (string, string) -> Result<string>,
    show: (string, string) -> Result<string>,
    json: string -> bool)

  // ---------------------------------------------------------------------- the suffix

  /** The last component that is not empty and not a dot: the name of a pure path. */
  function LastPart(parts: seq<string>): string {
    if parts == [] then ""
    else
      var last := parts[|parts| - 1];
      if last != "" && last != "." then last else LastPart(parts[..|parts| - 1])
  }

  /** The place of the last dot, or -1. */
  function LastDot(s: string): (i: int)
    ensures -1 <= i < |s|
    ensures i >= 0 ==> s[i] == '.'
    ensures forall j | i < j < |s| :: s[j] != '.'
  {
    if s == "" then -1
    else if s[|s| - 1] == '.' then |s| - 1
    else LastDot(s[..|s| - 1])
  }

  /** The file name extension with its dot, as Python's paths have it. */
  function Suffix(name: string): string {
    var last := LastPart(Split(name, "/"));
    var i := LastDot(last);
    if 0 < i < |last| - 1 then last[i..] else ""
  }

  /** The last part of a path that ends in `last`. */
  lemma {:induction false} LastOfPath(dir: string, last: string)
    requires '/' !in last
    ensures Split(dir + "/" + last, "/") == Split(dir, "/") + [last]
    decreases |dir|
  {
    var i := Find(dir, "/");
    SlashFree(last);
    assert Split(last, "/") == [last];
    if i < 0 {
      SlashEnds(dir);
      SplitBlock(dir, "/", last);
    } else {
      var first, rest := dir[..i], dir[i + 1..];
      assert first == dir[0..i];
      forall j ensures !OccursAt(first, j, "/") {
        OccursInPart(dir, j, "/", 0, i);
      }
      SlashEnds(first);
      SlashFound(dir, i);
      assert dir + "/" + last == first + "/" + (rest + "/" + last);
      SplitBlock(first, "/", rest + "/" + last);
      LastOfPath(rest, last);
      assert [first] + (Split(rest, "/") + [last]) == ([first] + Split(rest, "/")) + [last];
    }
  }

  lemma SlashFound(s: string, i: nat)
    requires OccursAt(s, i, "/")
    ensures s == s[..i] + "/" + s[i + 1..]
  {
  }

  lemma SlashFree(s: string)
    requires '/' !in s
    ensures !Contains(s, "/")
  {
    if Contains(s, "/") {
      var i := Find(s, "/");
      OccursChar(s, i, "/", 0);
    }
  }

  lemma SlashEnds(block: string)
    requires !Contains(block, "/")
    ensures EndsBlock(block, "/")
  {
    BorderlessEndsBlock(block, "/");
  }

  /** The file name of a path. */
  lemma FileNameIs(dir: string, last: string)
    requires '/' !in last && last != "" && last != "."
    ensures LastPart(Split(dir + "/" + last, "/")) == last
  {
    LastOfPath(dir, last);
    var parts := Split(dir + "/" + last, "/");
    assert parts[|parts| - 1] == last;
  }

  /** The suffix of a file is its last dot and what follows, if there is something before it and
      behind it. */
  lemma SuffixIs(dir: string, stem: string, extension: string)
    requires '/' !in stem && '/' !in extension && '.' !in extension && stem != "" && extension != ""
    ensures Suffix(dir + "/" + (stem + "." + extension)) == "." + extension
  {
    var last := stem + "." + extension;
    FileNameIs(dir, last);
    assert last[|stem|] == '.';
    assert forall j | |stem| < j < |last| :: last[j] == extension[j - |stem| - 1] && last[j] in extension;
    assert LastDot(last) == |stem|;
    assert last[|stem|..] == "." + extension;
  }

  /** Otherwise it has none. */
  lemma NoSuffix(dir: string, last: string)
    requires '/' !in last && last != "" && last != "."
    requires forall stem, extension | stem != "" && extension != "" && '.' !in extension :: last != stem + "." + extension
    ensures Suffix(dir + "/" + last) == ""
  {
    FileNameIs(dir, last);
    var stem, extension := CutAtDot(last);
  }

  lemma CutAtDot(last: string) returns (stem: string, extension: string)
    ensures 0 < LastDot(last) < |last| - 1 ==>
              stem != "" && extension != "" && '.' !in extension && last == stem + "." + extension
  {
    var i := LastDot(last);
    stem, extension := "", "";
    if 0 < i < |last| - 1 {
      stem, extension := last[..i], last[i + 1..];
    }
  }

  predicate EvidencePath(name: string) {
    && EVIDENCE <= name
    && (Suffix(name) == ".md" || Suffix(name) == ".json")
    && forall c | c in name :: c >= ' '
  }

  // ------------------------------------------------------------------------ a change

  /** Why one added or modified file needs the full lane, in the order of the checks. */
  function Refusal(git: Git, head: string, name: string): Option<Reason> {
    if !EvidencePath(name) then Some(PathRequiresFull)
    else
      match git.tree(head, name)
      case Err(_) => Some(ComparisonUnavailable)
      case Ok(entry) =>
        if !(REGULAR <= entry) then Some(FileModeRequiresFull)
        else
          match git.show(head, name)
          case Err(_) => Some(ComparisonUnavailable)
          case Ok(content) =>
            if '\0' in content then Some(BinaryEvidenceRequiresFull)
            else if Suffix(name) == ".json" && !git.json(content) then Some(ComparisonUnavailable)
            else None
  }

  /** Each reason against a file is given exactly when its own check fails and those before hold. */
  lemma RefusalIs(git: Git, head: string, name: string)
    ensures var r := Refusal(git, head, name);
      var path := EVIDENCE <= name && (Suffix(name) == ".md" || Suffix(name) == ".json") && forall c | c in name :: c >= ' ';
      var entry, content := git.tree(head, name), git.show(head, name);
      var regular := path && entry.Ok? && "100644 blob " <= entry.value;
      var text := regular && content.Ok? && '\0' !in content.value;
      var broken := text && Suffix(name) == ".json" && !git.json(content.value);
      && (r == Some(PathRequiresFull) <==> !path)
      && (r == Some(FileModeRequiresFull) <==> path && entry.Ok? && !regular)
      && (r == Some(BinaryEvidenceRequiresFull) <==> regular && content.Ok? && !text)
      && (r == Some(ComparisonUnavailable) <==> (path && entry.Err?) || (regular && content.Err?) || broken)
      && (r == None <==> text && !broken)
  {
  }

  /** A record of the name and status form: a renaming or a copy has two paths. */
  datatype Change = Change(status: string, paths: seq<string>)
  {
    predicate AddedOrModified() {
      status == "A" || status == "M"
    }

    /** As git prints it: an added or modified file has one path. */
    predicate Printable() {
      && '\0' !in status && (forall p | p in paths :: '\0' !in p)
      && (AddedOrModified() ==> |paths| == 1)
    }

    /** An ordinary change of evidence: a regular file of text, added or modified, under the
        evidence directory, Markdown or JSON that parses. */
    predicate Ordinary(git: Git, head: string) {
      && AddedOrModified() && |paths| == 1
      && var name := paths[0];
      && EvidencePath(name)
      && git.tree(head, name).Ok? && REGULAR <= git.tree(head, name).value
      && git.show(head, name).Ok? && '\0' !in git.show(head, name).value
      && (Suffix(name) == ".json" ==> git.json(git.show(head, name).value))
    }
  }

  function Fields(changes: seq<Change>): seq<string> {
    if changes == [] then [] else [changes[0].status] + changes[0].paths + Fields(changes[1..])
  }

  /** The output of `git diff --name-status -z`. */
  function Print(changes: seq<Change>): string {
    Terminated(Fields(changes))
  }

  /** Every field with the NUL after it. */
  function Terminated(fields: seq<string>): string {
    if fields == [] then "" else fields[0] + NUL + Terminated(fields[1..])
  }

  predicate AllPrintable(changes: seq<Change>) {
    forall i | 0 <= i < |changes| :: changes[i].Printable()
  }

  predicate AllOrdinary(git: Git, head: string, changes: seq<Change>) {
    forall i | 0 <= i < |changes| :: changes[i].Ordinary(git, head)
  }

  // ------------------------------------------------------------------------ the loop

  /** What the loop makes of the fields. */
  function Scan(git: Git, head: string, fields: seq<string>): Scope {
    if fields == [] then Docs
    else if (fields[0] != "A" && fields[0] != "M") || |fields| == 1 then Full(ChangeStatusRequiresFull)
    else
      match Refusal(git, head, fields[1])
      case Some(reason) => Full(reason)
      case None => Scan(git, head, fields[2..])
  }

  method CheckFile(git: Git, head: string, name: string) returns (refusal: Option<Reason>)
    ensures refusal == Refusal(git, head, name)
    ensures refusal == None <==> Change("A", [name]).Ordinary(git, head)
  {
    if !EvidencePath(name) {
      return Some(PathRequiresFull);
    }
    var entry := git.tree(head, name);
    if entry.Err? {
      return Some(ComparisonUnavailable);
    }
    if !(REGULAR <= entry.value) {
      return Some(FileModeRequiresFull);
    }
    var content := git.show(head, name);
    if content.Err? {
      return Some(ComparisonUnavailable);
    }
    if '\0' in content.value {
      return Some(BinaryEvidenceRequiresFull);
    }
    if Suffix(name) == ".json" && !git.json(content.value) {
      return Some(ComparisonUnavailable);
    }
    return None;
  }

  method CheckFields(git: Git, head: string, all: seq<string>) returns (scope: Scope)
    ensures scope == Scan(git, head, all)
  {
    var fields := all;
    while fields != []
      invariant Scan(git, head, all) == Scan(git, head, fields)
      decreases |fields|
    {
      var status := fields[0];
      fields := fields[1..];
      if (status != "A" && status != "M") || fields == [] {
        return Full(ChangeStatusRequiresFull);
      }
      var name := fields[0];
      fields := fields[1..];
      var refusal := CheckFile(git, head, name);
      if refusal.Some? {
        return Full(refusal.value);
      }
    }
    return Docs;
  }

  /** The two revisions, resolved, and what changed between them. */
  function Compared(git: Git, base: string, head: string): Result<(string, string)> {
    var from :- git.commit(base + "^{commit}");
    var to :- git.commit(head + "^{commit}");
    var data :- git.diff(Strip(from), Strip(to));
    Ok((Strip(to), data))
  }

  /** Both revisions are resolved to commits, and the change is from the base to the head. */
  lemma ComparedIs(git: Git, base: string, head: string, to: string, data: string)
    ensures Compared(git, base, head) == Ok((to, data)) <==>
              && git.commit(base + "^{commit}").Ok? && git.commit(head + "^{commit}").Ok?
              && to == Strip(git.commit(head + "^{commit}").value)
              && git.diff(Strip(git.commit(base + "^{commit}").value), to) == Ok(data)
  {
  }

  predicate Qualifies(event: string, base: string, head: string) {
    (event == "pull_request" || event == "push") && base != "" && head != ""
  }

  /** The data is the printed form of ordinary changes, of one at least. */
  predicate OrdinaryChanges(git: Git, head: string, data: string, changes: seq<Change>) {
    changes != [] && AllPrintable(changes) && data == Print(changes) && AllOrdinary(git, head, changes)
  }

  method Decide(git: Git, head: string, data: string) returns (scope: Scope)
    ensures forall changes | AllPrintable(changes) && data == Print(changes) :: scope == Decision(git, head, changes)
    ensures scope == Docs ==> exists changes :: OrdinaryChanges(git, head, data, changes)
  {
    var fields := Split(data, NUL);
    if fields[|fields| - 1] != "" || |fields| == 1 {
      scope := Full(NoChanges);
    } else {
      scope := CheckFields(git, head, fields[..|fields| - 1]);
    }
    forall changes | AllPrintable(changes) && data == Print(changes) ensures scope == Decision(git, head, changes) {
      SplitPrinted(changes);
      ScanPrinted(git, head, changes);
    }
    if scope == Docs {
      assert fields == fields[..|fields| - 1] + [""];
      var changes := OrdinaryData(git, head, data, fields[..|fields| - 1]);
    }
  }

  /** An absent revision is the empty string. */
  method Classify(git: Git, base: string, head: string, event: string) returns (scope: Scope)
    ensures event != "pull_request" && event != "push" ==> scope == Full(EventRequiresFull)
    ensures (event == "pull_request" || event == "push") && (base == "" || head == "" || Compared(git, base, head).Err?) ==>
              scope == Full(ComparisonUnavailable)
    ensures Qualifies(event, base, head) && Compared(git, base, head).Ok? ==>
              var (to, data) := Compared(git, base, head).value;
              forall changes | AllPrintable(changes) && data == Print(changes) :: scope == Decision(git, to, changes)
    ensures scope == Docs ==>
              && Qualifies(event, base, head) && Compared(git, base, head).Ok?
              && var (to, data) := Compared(git, base, head).value;
              exists changes :: OrdinaryChanges(git, to, data, changes)
  {
    if event != "pull_request" && event != "push" {
      return Full(EventRequiresFull);
    }
    if base == "" || head == "" {
      return Full(ComparisonUnavailable);
    }
    var from := git.commit(base + "^{commit}");
    if from.Err? {
      return Full(ComparisonUnavailable);
    }
    var to := git.commit(head + "^{commit}");
    if to.Err? {
      return Full(ComparisonUnavailable);
    }
    var revision := Strip(to.value);
    var data := git.diff(Strip(from.value), revision);
    if data.Err? {
      return Full(ComparisonUnavailable);
    }
    scope := Decide(git, revision, data.value);
  }

  // --------------------------------------------------------------- what it decides

  /** The reason against one change, if it is not ordinary. */
  function Objection(git: Git, head: string, change: Change): (r: Option<Reason>)
    requires change.Printable()
    ensures r == None <==> change.Ordinary(git, head)
  {
    if !change.AddedOrModified() then Some(ChangeStatusRequiresFull) else Refusal(git, head, change.paths[0])
  }

  /** The decision on a list of changes: the objection against the first change that is not
      ordinary, and the full lane as well when there is no change. */
  function Decision(git: Git, head: string, changes: seq<Change>): (scope: Scope)
    requires AllPrintable(changes)
    ensures scope == Docs <==> changes != [] && AllOrdinary(git, head, changes)
  {
    if changes == [] then Full(NoChanges)
    else
      match Objection(git, head, changes[0])
      case Some(reason) => Full(reason)
      case None => if |changes| == 1 then Docs else Decision(git, head, changes[1..])
  }

  /** The loop stays on record boundaries: on the fields of printed changes it decides
      change by change, so it never takes the second path of a renaming for a status. */
  lemma {:induction false} ScanPrinted(git: Git, head: string, changes: seq<Change>)
    requires AllPrintable(changes)
    ensures changes != [] ==> Scan(git, head, Fields(changes)) == Decision(git, head, changes)
    ensures changes == [] ==> Scan(git, head, Fields(changes)) == Docs
  {
    if changes != [] {
      var first := changes[0];
      var fields := Fields(changes);
      assert first.Printable();
      assert fields[0] == first.status;
      if first.AddedOrModified() {
        assert fields == [first.status, first.paths[0]] + Fields(changes[1..]);
        assert fields[2..] == Fields(changes[1..]);
        ScanPrinted(git, head, changes[1..]);
      }
    }
  }

  lemma FieldsAreFree(changes: seq<Change>)
    requires AllPrintable(changes)
    ensures forall f | f in Fields(changes) :: '\0' !in f
  {
    if changes != [] {
      assert changes[0].Printable();
      FieldsAreFree(changes[1..]);
    }
  }

  lemma NoNulInside(s: string)
    ensures Contains(s, NUL) <==> '\0' in s
  {
    if '\0' in s {
      var i :| 0 <= i < |s| && s[i] == '\0';
      assert OccursAt(s, i, NUL);
    }
    if Contains(s, NUL) {
      var i := Find(s, NUL);
      assert OccursAt(s, i, NUL);
      assert s[i..i + 1][0] == s[i];
    }
  }

  lemma SplitOne(first: string, rest: string)
    requires '\0' !in first
    ensures Split(first + NUL + rest, NUL) == [first] + Split(rest, NUL)
  {
    NoNulInside(first);
    BorderlessEndsBlock(first, NUL);
    FindAfterBlock(first, NUL, rest);
    assert (first + NUL + rest)[..|first|] == first;
    assert (first + NUL + rest)[|first| + 1..] == rest;
  }

  /** Splitting gives the fields back, and the empty string behind the last NUL. */
  lemma {:induction false} SplitOfTerminated(fields: seq<string>)
    requires forall f | f in fields :: '\0' !in f
    ensures Split(Terminated(fields), NUL) == fields + [""]
  {
    if fields != [] {
      SplitOfTerminated(fields[1..]);
      SplitOne(fields[0], Terminated(fields[1..]));
    }
  }

  lemma SplitPrinted(changes: seq<Change>)
    requires AllPrintable(changes)
    ensures var fields := Split(Print(changes), NUL);
      && fields[|fields| - 1] == "" && (|fields| == 1 <==> changes == [])
      && fields[..|fields| - 1] == Fields(changes)
  {
    FieldsAreFree(changes);
    SplitOfTerminated(Fields(changes));
    assert changes != [] ==> |Fields(changes)| > 0;
  }

  /** And joining is the inverse. */
  lemma {:induction false} SplitTerminated(data: string, fields: seq<string>)
    requires Split(data, NUL) == fields + [""]
    ensures Terminated(fields) == data && forall f | f in fields :: '\0' !in f
  {
    JoinSplit(data, NUL);
    SplitIsFree(data, NUL);
    forall f | f in fields ensures '\0' !in f {
      assert f in Split(data, NUL);
      NoNulInside(f);
    }
    JoinTerminated(fields);
  }

  lemma {:induction false} JoinTerminated(fields: seq<string>)
    ensures Join(fields + [""], NUL) == Terminated(fields)
  {
    if fields != [] {
      assert (fields + [""])[1..] == fields[1..] + [""];
      JoinTerminated(fields[1..]);
    }
  }

  lemma ScanStep(git: Git, head: string, fields: seq<string>)
    requires Scan(git, head, fields) == Docs && fields != []
    ensures |fields| >= 2 && Scan(git, head, fields[2..]) == Docs
    ensures Change(fields[0], [fields[1]]).Ordinary(git, head)
  {
    var change := Change(fields[0], [fields[1]]);
    assert change.paths[0] == fields[1];
    assert Refusal(git, head, fields[1]) == None;
  }

  /** Fields that pass are two by two the records of ordinary changes. */
  lemma {:induction false} OrdinaryRead(git: Git, head: string, fields: seq<string>) returns (changes: seq<Change>)
    requires Scan(git, head, fields) == Docs
    ensures Fields(changes) == fields && AllOrdinary(git, head, changes)
  {
    changes := [];
    if fields != [] {
      ScanStep(git, head, fields);
      var rest := OrdinaryRead(git, head, fields[2..]);
      FirstRecord(git, head, fields, rest);
      changes := [Change(fields[0], [fields[1]])] + rest;
    }
  }

  lemma FirstRecord(git: Git, head: string, fields: seq<string>, rest: seq<Change>)
    requires |fields| >= 2 && Fields(rest) == fields[2..] && AllOrdinary(git, head, rest)
    requires Change(fields[0], [fields[1]]).Ordinary(git, head)
    ensures var changes := [Change(fields[0], [fields[1]])] + rest;
      Fields(changes) == fields && AllOrdinary(git, head, changes)
  {
    var first := Change(fields[0], [fields[1]]);
    FieldsOfFirst(first, rest);
    assert fields == [fields[0]] + [fields[1]] + fields[2..];
  }

  lemma FieldsOfFirst(first: Change, rest: seq<Change>)
    ensures Fields([first] + rest) == [first.status] + first.paths + Fields(rest)
  {
    assert ([first] + rest)[1..] == rest;
  }

  lemma FirstIsPrintable(git: Git, head: string, first: Change, rest: seq<Change>)
    requires first.Ordinary(git, head)
    requires forall f | f in Fields([first] + rest) :: '\0' !in f
    ensures first.Printable()
  {
    FieldsOfFirst(first, rest);
    var fields := Fields([first] + rest);
    assert fields[0] == first.status && fields[1] == first.paths[0];
  }

  lemma FreeIsPrintable(git: Git, head: string, changes: seq<Change>)
    requires AllOrdinary(git, head, changes)
    requires forall f | f in Fields(changes) :: '\0' !in f
    ensures AllPrintable(changes)
  {
    if changes != [] {
      var fields := Fields(changes);
      var first := changes[0];
      assert changes == [first] + changes[1..];
      FirstIsPrintable(git, head, first, changes[1..]);
      assert forall f | f in Fields(changes[1..]) :: f in fields;
      FreeIsPrintable(git, head, changes[1..]);
    }
  }

  /** Data that passes is the printed form of ordinary changes. */
  lemma OrdinaryData(git: Git, head: string, data: string, fields: seq<string>) returns (changes: seq<Change>)
    requires Split(data, NUL) == fields + [""] && fields != []
    requires Scan(git, head, fields) == Docs
    ensures OrdinaryChanges(git, head, data, changes)
  {
    SplitTerminated(data, fields);
    changes := OrdinaryRead(git, head, fields);
    FreeIsPrintable(git, head, changes);
  }
}
