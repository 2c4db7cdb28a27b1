/** The policy pointers and the pinned source inventory: `check` of scripts/check_policy_wiring.py. */
module PolicyWiring {
  import opened Values

  const PREFIX: string := "docs/dev/policies/"

  // ----------------------------------------------------------- pointers in AGENTS.md

  /** The length of the start of `s` that has neither a back-quote nor a line feed. */
  function Unbroken(s: string): (n: nat)
    ensures n <= |s| && (n < |s| ==> s[n] == '`' || s[n] == '\n')
    ensures forall k | 0 <= k < n :: s[k] != '`' && s[k] != '\n'
  {
    if s == "" || s[0] == '`' || s[0] == '\n' then 0 else 1 + Unbroken(s[1..])
  }

  predicate NoBreak(s: string) {
    forall c | c in s :: c != '`' && c != '\n'
  }

  /** What stands between the quotes of a policy pointer. */
  predicate IsPointer(inner: string) {
    && PREFIX <= inner
    && |inner| > |PREFIX| + 3
    && inner[|inner| - 3..] == ".md"
    && NoBreak(inner)
  }

  /** A pointer is a Markdown file below the policies, its path on one line. */
  lemma IsPointerIs(inner: string)
    ensures IsPointer(inner) <==>
              exists middle :: middle != "" && NoBreak(middle) && inner == "docs/dev/policies/" + middle + ".md"
  {
    if IsPointer(inner) {
      var middle := inner[|PREFIX|..|inner| - 3];
      assert inner == PREFIX + middle + ".md";
      assert forall c | c in middle :: c in inner;
    }
    forall middle | middle != "" && NoBreak(middle) && inner == "docs/dev/policies/" + middle + ".md" ensures IsPointer(inner) {
      assert inner[|inner| - 3..] == ".md";
      assert forall c | c in inner :: c in PREFIX || c in middle || c in ".md";
    }
  }

  /** A quoted pointer stands at the start. */
  predicate Opens(text: string) {
    text != "" && text[0] == '`' &&
    var n := Unbroken(text[1..]);
    n + 1 < |text| && text[n + 1] == '`' && IsPointer(text[1..n + 1])
  }

  /** `re.findall`: leftmost matches that do not overlap. */
  function Pointers(text: string): seq<string> {
    if text == "" then []
    else if Opens(text) then
      var n := Unbroken(text[1..]);
      [text[1..n + 1]] + Pointers(text[n + 2..])
    else Pointers(text[1..])
  }

  lemma UnbrokenUpTo(s: string, n: nat, more: string)
    requires n < |s| && (s[n] == '`' || s[n] == '\n')
    requires forall k | 0 <= k < n :: s[k] != '`' && s[k] != '\n'
    ensures Unbroken(s + more) == n
  {
    if n > 0 {
      assert (s + more)[1..] == s[1..] + more;
      UnbrokenUpTo(s[1..], n - 1, more);
    }
  }

  /** Prose in which no pointer stands, not even with the quote that follows it. */
  predicate Quiet(prose: string) {
    Pointers(prose + "`") == []
  }

  lemma QuotedAtStart(inner: string, rest: string)
    requires NoBreak(inner)
    ensures var text := "`" + inner + "`" + rest;
      var n := |inner|;
      && text[0] == text[n + 1] == '`' && Unbroken(text[1..]) == n
      && text[1..n + 1] == inner && text[n + 2..] == rest
  {
    var text := "`" + inner + "`" + rest;
    assert text[1..] == (inner + "`") + rest;
    assert forall k | 0 <= k < |inner| :: inner[k] in inner;
    UnbrokenUpTo(inner + "`", |inner|, rest);
  }

  lemma PointerAtStart(pointer: string, rest: string)
    requires IsPointer(pointer)
    ensures Pointers("`" + pointer + "`" + rest) == [pointer] + Pointers(rest)
  {
    QuotedAtStart(pointer, rest);
  }

  lemma {:induction false} PointerFound(prose: string, pointer: string, rest: string)
    requires Quiet(prose) && IsPointer(pointer)
    ensures Pointers(prose + "`" + pointer + "`" + rest) == [pointer] + Pointers(rest)
  {
    var text := prose + "`" + pointer + "`" + rest;
    if prose == "" {
      assert text == "`" + pointer + "`" + rest;
      PointerAtStart(pointer, rest);
    } else {
      assert text[1..] == prose[1..] + "`" + pointer + "`" + rest;
      assert (prose + "`")[1..] == prose[1..] + "`";
      if prose[0] == '`' {
        QuoteSkipped(prose, pointer + "`" + rest);
        assert text == (prose + "`") + (pointer + "`" + rest);
      }
      PointerFound(prose[1..], pointer, rest);
    }
  }

  /** A quote in quiet prose opens no pointer, whatever follows. */
  lemma QuoteSkipped(prose: string, more: string)
    requires Quiet(prose) && prose != "" && prose[0] == '`'
    ensures Quiet(prose[1..])
    ensures Pointers((prose + "`") + more) == Pointers(((prose + "`") + more)[1..])
  {
    var s := prose + "`";
    var n := Unbroken(s[1..]);
    assert s[1..][|s| - 2] == '`';
    assert n < |s| - 1;
    UnbrokenUpTo(s[1..], n, more);
    assert (s + more)[1..] == s[1..] + more;
    assert (s + more)[1..n + 1] == s[1..n + 1];
    assert s[1..] == prose[1..] + "`";
  }

  /** Prose and pointers in turn, and prose at the end. */
  function Written(parts: seq<(string, string)>, tail: string): string {
    if parts == [] then tail else parts[0].0 + "`" + parts[0].1 + "`" + Written(parts[1..], tail)
  }

  function Second(parts: seq<(string, string)>): seq<string> {
    if parts == [] then [] else [parts[0].1] + Second(parts[1..])
  }

  /** Exactly the pointers that were written are found, in their order. */
  lemma {:induction false} WrittenPointersFound(parts: seq<(string, string)>, tail: string)
    requires forall i | 0 <= i < |parts| :: Quiet(parts[i].0) && IsPointer(parts[i].1)
    requires Pointers(tail) == []
    ensures Pointers(Written(parts, tail)) == Second(parts)
  {
    if parts != [] {
      PointerFound(parts[0].0, parts[0].1, Written(parts[1..], tail));
      WrittenPointersFound(parts[1..], tail);
    }
  }

  /** Prose without a back-quote is quiet. */
  lemma {:induction false} UnquotedIsQuiet(prose: string)
    requires '`' !in prose
    ensures Quiet(prose)
  {
    if prose != "" {
      assert (prose + "`")[1..] == prose[1..] + "`";
      UnquotedIsQuiet(prose[1..]);
    }
  }

  /** What is found stands between back-quotes in the text. */
  lemma {:induction false} FoundIsQuoted(text: string, i: nat) returns (left: string, right: string)
    requires i < |Pointers(text)|
    ensures IsPointer(Pointers(text)[i])
    ensures text == left + "`" + Pointers(text)[i] + "`" + right
  {
    var n := Unbroken(text[1..]);
    if Opens(text) {
      CutQuoted(text, n);
      if i == 0 {
        left, right := "", text[n + 2..];
      } else {
        left, right := FoundIsQuoted(text[n + 2..], i - 1);
        Prepended(text[..n + 2], left, Pointers(text)[i], right);
        left := text[..n + 2] + left;
      }
    } else {
      left, right := FoundIsQuoted(text[1..], i);
      Prepended(text[..1], left, Pointers(text)[i], right);
      left := text[..1] + left;
    }
  }

  lemma CutQuoted(text: string, n: nat)
    requires n + 1 < |text| && text[0] == text[n + 1] == '`'
    ensures text == "" + "`" + text[1..n + 1] + "`" + text[n + 2..]
    ensures text == text[..n + 2] + text[n + 2..]
  {
  }

  lemma Prepended(start: string, left: string, inner: string, right: string)
    ensures start + (left + "`" + inner + "`" + right) == (start + left) + "`" + inner + "`" + right
  {
  }

  // -------------------------------------------------------------- policy identities

  /** The last component of a path. */
  function BaseName(path: string): string {
    if path == "" then ""
    else if path[|path| - 1] == '/' then ""
    else BaseName(path[..|path| - 1]) + [path[|path| - 1]]
  }

  function Digits(s: string): (n: nat)
    ensures n <= |s|
  {
    if s != "" && '0' <= s[0] <= '9' then 1 + Digits(s[1..]) else 0
  }

  /** The name without the number and the hyphen that it may begin with. */
  function Unnumbered(name: string): string {
    var n := Digits(name);
    if 0 < n < |name| && name[n] == '-' then name[n + 1..] else name
  }

  /** The base name is what follows the last slash. */
  lemma {:induction false} BaseNameIs(path: string) returns (dir: string)
    ensures path == dir + BaseName(path) && '/' !in BaseName(path)
    ensures dir == "" || dir[|dir| - 1] == '/'
  {
    if path == "" || path[|path| - 1] == '/' {
      dir := path;
    } else {
      dir := BaseNameIs(path[..|path| - 1]);
    }
  }

  /** The name begins with a number, then a hyphen, and goes on with `rest`. */
  ghost predicate Numbered(name: string, digits: string, rest: string) {
    digits != "" && (forall c | c in digits :: '0' <= c <= '9') && name == digits + "-" + rest
  }

  lemma {:induction false} DigitsCounted(s: string)
    ensures forall k | 0 <= k < Digits(s) :: '0' <= s[k] <= '9'
    ensures Digits(s) < |s| ==> !('0' <= s[Digits(s)] <= '9')
  {
    if s != "" && '0' <= s[0] <= '9' {
      DigitsCounted(s[1..]);
      assert forall k | 0 < k < Digits(s) :: s[k] == s[1..][k - 1];
      assert Digits(s) < |s| ==> s[Digits(s)] == s[1..][Digits(s) - 1];
    }
  }

  /** A number and its hyphen are taken away, and nothing else is. */
  lemma UnnumberedIs(name: string)
    ensures forall digits, rest | Numbered(name, digits, rest) :: Unnumbered(name) == rest
    ensures Unnumbered(name) == name || exists digits :: Numbered(name, digits, Unnumbered(name))
  {
    DigitsCounted(name);
    var n := Digits(name);
    forall digits, rest | Numbered(name, digits, rest) ensures Unnumbered(name) == rest {
      assert forall k | 0 <= k < |digits| :: name[k] == digits[k] && digits[k] in digits;
      assert name[|digits|] == '-' && name[|digits| + 1..] == rest;
      assert n == |digits|;
    }
    if Unnumbered(name) != name {
      assert name == name[..n] + "-" + name[n + 1..];
      assert Numbered(name, name[..n], Unnumbered(name));
    }
  }

  function Identity(policy: string): string {
    Unnumbered(BaseName(policy))
  }

  function Identities(policies: seq<string>): (names: seq<string>)
    ensures |names| == |policies|
  {
    seq(|policies|, i requires 0 <= i < |policies| => Identity(policies[i]))
  }

  // --------------------------------------------------------------------- the inputs

  /** `None` is a missing key. */
  datatype Item = Item(path: Option<string>, sha256: Option<string>)
  datatype Profile = Profile(sources: Option<seq<Item>>, fallbackPaths: Option<seq<string>>)
  datatype Manifest = Manifest(inventory: Option<seq<Item>>, profiles: Option<seq<Profile>>, fallbackPaths: Option<seq<string>>)

  /** The repository: the text of AGENTS.md if there is one, the sorted policy files, the
      manifest if it can be read, and the hash of every file that can be read. */
  datatype Tree = Tree(agents: Option<string>, policies: seq<string>, manifest: Result<Manifest>, disk: string -> Option<string>)
  {
    /** A directory lists a file once. */
    predicate Valid() {
      forall i, j | 0 <= i < j < |policies| :: policies[i] != policies[j]
    }

    function Expected(): seq<string> {
      ["AGENTS.md"] + policies
    }
  }

  datatype Error =
    | AgentsMissing
    | DuplicatePointer(what: string)
    | MissingTarget(what: string)
    | Unwired(what: string)
    | DuplicateIdentity(what: string)
    | InventoryDiffers
    | StaleHash(what: string)
    | ProfileDiffers(what: string)
    | Noncanonical(what: string)
    | InvalidManifest

  function PathsOf(items: seq<Item>): (paths: seq<Option<string>>)
    ensures |paths| == |items| && forall i | 0 <= i < |items| :: paths[i] == items[i].path
  {
    seq(|items|, i requires 0 <= i < |items| => items[i].path)
  }

  function Known(paths: seq<string>): (known: seq<Option<string>>)
    ensures |known| == |paths| && forall i | 0 <= i < |paths| :: known[i] == Some(paths[i])
  {
    seq(|paths|, i requires 0 <= i < |paths| => Some(paths[i]))
  }

  /** What a dictionary of path and hash holds: the last entry wins. */
  function LastHash(items: seq<Item>, path: string): Option<string> {
    if items == [] then None
    else if items[|items| - 1].path == Some(path) then items[|items| - 1].sha256
    else LastHash(items[..|items| - 1], path)
  }

  // ------------------------------------------------------------ what is to be reported

  predicate PointerWrong(pointers: seq<string>, policies: seq<string>, e: Error) {
    match e
    case DuplicatePointer(path) => multiset(pointers)[path] > 1
    case MissingTarget(path) => path in pointers && path !in policies
    case Unwired(path) => path in policies && path !in pointers
    case DuplicateIdentity(name) => multiset(Identities(policies))[name] > 1
    case _ => false
  }

  predicate SourceWrong(inventory: seq<Item>, source: Item, path: string) {
    source.path == Some(path) && LastHash(inventory, path) != source.sha256
  }

  predicate ItemWrong(t: Tree, item: Item, path: string) {
    item.path == Some(path) && path in t.Expected() && t.disk(path) != item.sha256
  }

  predicate InventoryWrong(t: Tree, inventory: seq<Item>, e: Error) {
    match e
    case InventoryDiffers => multiset(PathsOf(inventory)) != multiset(Known(t.Expected()))
    case StaleHash(path) => exists i | 0 <= i < |inventory| :: ItemWrong(t, inventory[i], path)
    case _ => false
  }

  predicate FallbackWrong(t: Tree, paths: Option<seq<string>>, e: Error) {
    e.Noncanonical? && paths.Some? && e.what in paths.value && e.what !in t.Expected()
  }

  predicate ProfileWrong(t: Tree, inventory: seq<Item>, profile: Profile, e: Error) {
    || (e.ProfileDiffers? && profile.sources.Some? &&
        exists i | 0 <= i < |profile.sources.value| :: SourceWrong(inventory, profile.sources.value[i], e.what))
    || FallbackWrong(t, profile.fallbackPaths, e)
  }

  predicate ManifestWrong(t: Tree, m: Manifest, e: Error) {
    && m.inventory.Some?
    && (|| InventoryWrong(t, m.inventory.value, e)
        || (m.profiles.Some? && exists i | 0 <= i < |m.profiles.value| :: ProfileWrong(t, m.inventory.value, m.profiles.value[i], e))
        || FallbackWrong(t, m.fallbackPaths, e))
  }

  // ------------------------------------------------------------- what makes it raise

  predicate ItemWhole(item: Item) {
    item.path.Some? && item.sha256.Some?
  }

  predicate ItemsWhole(items: seq<Item>) {
    forall i | 0 <= i < |items| :: ItemWhole(items[i])
  }

  predicate ProfileWhole(p: Profile) {
    p.sources.Some? && ItemsWhole(p.sources.value) && p.fallbackPaths.Some?
  }

  predicate ProfilesWhole(profiles: seq<Profile>) {
    forall i | 0 <= i < |profiles| :: ProfileWhole(profiles[i])
  }

  /** Every inventory file that is to be hashed can be read. */
  predicate Readable(t: Tree, inventory: seq<Item>) {
    forall i | 0 <= i < |inventory| :: inventory[i].path.Some? && inventory[i].path.value in t.Expected() ==>
                                         t.disk(inventory[i].path.value).Some?
  }

  predicate InventoryReadable(t: Tree, inventory: seq<Item>) {
    ItemsWhole(inventory) && Readable(t, inventory)
  }

  predicate ManifestReadable(t: Tree, m: Manifest) {
    && m.inventory.Some? && InventoryReadable(t, m.inventory.value)
    && m.profiles.Some? && ProfilesWhole(m.profiles.value)
    && m.fallbackPaths.Some?
  }

  // --------------------------------------------------------------------- the methods

  /** The keys of a `Counter`, in the order in which they first came. */
  function Keys(s: seq<string>): (keys: seq<string>)
    ensures forall x :: x in keys <==> x in s
  {
    if s == [] then []
    else
      var before := Keys(s[..|s| - 1]);
      assert s == s[..|s| - 1] + [s[|s| - 1]];
      if s[|s| - 1] in before then before else before + [s[|s| - 1]]
  }

  method CountPointers(pointers: seq<string>, policies: seq<string>) returns (errors: seq<Error>)
    ensures forall e: Error :: e in errors <==> (e.DuplicatePointer? || e.MissingTarget?) && PointerWrong(pointers, policies, e)
  {
    errors := [];
    var keys := Keys(pointers);
    for i := 0 to |keys|
      invariant forall e: Error :: e in errors <==>
                  (e.DuplicatePointer? || e.MissingTarget?) && e.what in keys[..i] && PointerWrong(pointers, policies, e)
    {
      var path := keys[i];
      assert keys[..i + 1] == keys[..i] + [path];
      assert path in pointers && multiset(pointers)[path] >= 1;
      if multiset(pointers)[path] != 1 {
        errors := errors + [DuplicatePointer(path)];
      }
      if path !in policies {
        errors := errors + [MissingTarget(path)];
      }
    }
    assert keys[..|keys|] == keys;
  }

  method FindUnwired(pointers: seq<string>, policies: seq<string>) returns (errors: seq<Error>)
    ensures forall e: Error :: e in errors <==> e.Unwired? && PointerWrong(pointers, policies, e)
  {
    errors := [];
    for i := 0 to |policies|
      invariant forall e: Error :: e in errors <==> e.Unwired? && e.what in policies[..i] && e.what !in pointers
    {
      if policies[i] !in pointers {
        errors := errors + [Unwired(policies[i])];
      }
    }
  }

  method CountIdentities(policies: seq<string>) returns (errors: seq<Error>)
    ensures forall e: Error :: e in errors <==> e.DuplicateIdentity? && PointerWrong([], policies, e)
  {
    errors := [];
    var names := Identities(policies);
    var keys := Keys(names);
    for i := 0 to |keys|
      invariant forall e: Error :: e in errors <==> e.DuplicateIdentity? && e.what in keys[..i] && multiset(names)[e.what] > 1
    {
      var name := keys[i];
      assert keys[..i + 1] == keys[..i] + [name];
      assert name in names && multiset(names)[name] >= 1;
      if multiset(names)[name] != 1 {
        errors := errors + [DuplicateIdentity(name)];
      }
    }
    assert keys[..|keys|] == keys;
  }

  method ReadPaths(inventory: seq<Item>) returns (paths: seq<Option<string>>, raised: bool)
    ensures raised <==> exists i | 0 <= i < |inventory| :: inventory[i].path.None?
    ensures !raised ==> paths == PathsOf(inventory)
  {
    paths, raised := [], false;
    for i := 0 to |inventory|
      invariant paths == PathsOf(inventory[..i])
      invariant forall k | 0 <= k < i :: inventory[k].path.Some?
    {
      if inventory[i].path.None? {
        return paths, true;
      }
      paths := paths + [inventory[i].path];
    }
    assert inventory[..|inventory|] == inventory;
  }

  method HashInventory(t: Tree, inventory: seq<Item>) returns (errors: seq<Error>, raised: bool)
    requires forall i | 0 <= i < |inventory| :: inventory[i].path.Some?
    ensures raised ==> !InventoryReadable(t, inventory)
    ensures !raised ==> Readable(t, inventory)
    ensures forall e: Error | e in errors :: e.StaleHash? && InventoryWrong(t, inventory, e)
    ensures !raised ==> forall e: Error | e.StaleHash? && InventoryWrong(t, inventory, e) :: e in errors
  {
    errors, raised := [], false;
    for i := 0 to |inventory|
      invariant Readable(t, inventory[..i])
      invariant forall e: Error :: e in errors <==> e.StaleHash? && InventoryWrong(t, inventory[..i], e)
    {
      var item := inventory[i];
      var path := item.path.value;
      assert inventory[..i + 1] == inventory[..i] + [item];
      if path in t.Expected() {
        if t.disk(path).None? || item.sha256.None? {
          assert !InventoryReadable(t, inventory);
          return errors, true;
        }
        if t.disk(path) != item.sha256 {
          assert ItemWrong(t, inventory[..i + 1][i], path);
          errors := errors + [StaleHash(path)];
        }
      }
      forall e: Error ensures e.StaleHash? && InventoryWrong(t, inventory[..i + 1], e) <==>
                       e.StaleHash? && (InventoryWrong(t, inventory[..i], e) || ItemWrong(t, item, e.what)) {
        StaleHashStep(t, inventory[..i], item, e);
      }
    }
    assert inventory[..|inventory|] == inventory;
  }

  lemma StaleHashStep(t: Tree, items: seq<Item>, item: Item, e: Error)
    ensures e.StaleHash? ==> (InventoryWrong(t, items + [item], e) <==> InventoryWrong(t, items, e) || ItemWrong(t, item, e.what))
  {
    if e.StaleHash? {
      var all := items + [item];
      assert all[|items|] == item;
      if InventoryWrong(t, items, e) {
        var i :| 0 <= i < |items| && ItemWrong(t, items[i], e.what);
        assert all[i] == items[i];
      }
      if InventoryWrong(t, all, e) {
        var i :| 0 <= i < |all| && ItemWrong(t, all[i], e.what);
        assert i < |items| ==> all[i] == items[i];
      }
    }
  }

  /** The dictionary from path to hash. */
  method InventoryHashes(inventory: seq<Item>) returns (hashes: map<string, string>, raised: bool)
    ensures raised <==> !ItemsWhole(inventory)
    ensures !raised ==> forall path :: LastHash(inventory, path) == if path in hashes then Some(hashes[path]) else None
  {
    hashes, raised := map[], false;
    for i := 0 to |inventory|
      invariant ItemsWhole(inventory[..i])
      invariant forall path :: LastHash(inventory[..i], path) == if path in hashes then Some(hashes[path]) else None
    {
      var item := inventory[i];
      if !ItemWhole(item) {
        return hashes, true;
      }
      assert inventory[..i + 1][..i] == inventory[..i];
      hashes := hashes[item.path.value := item.sha256.value];
    }
    assert inventory[..|inventory|] == inventory;
  }

  method CheckInventory(t: Tree, inventory: seq<Item>) returns (errors: seq<Error>, raised: bool)
    ensures raised ==> !InventoryReadable(t, inventory)
    ensures !raised ==> Readable(t, inventory)
    ensures forall e: Error | e in errors :: InventoryWrong(t, inventory, e)
    ensures !raised ==> forall e: Error | InventoryWrong(t, inventory, e) :: e in errors
  {
    var paths;
    paths, raised := ReadPaths(inventory);
    if raised {
      return [], true;
    }
    var stale;
    stale, raised := HashInventory(t, inventory);
    errors := if multiset(paths) != multiset(Known(t.Expected())) then [InventoryDiffers] else [];
    errors := errors + stale;
  }

  method CheckSources(inventory: seq<Item>, hashes: map<string, string>, sources: seq<Item>)
    returns (errors: seq<Error>, raised: bool)
    requires forall path :: LastHash(inventory, path) == if path in hashes then Some(hashes[path]) else None
    ensures raised <==> !ItemsWhole(sources)
    ensures forall e: Error | e in errors :: e.ProfileDiffers? && exists i | 0 <= i < |sources| :: SourceWrong(inventory, sources[i], e.what)
    ensures !raised ==> forall i, path | 0 <= i < |sources| && SourceWrong(inventory, sources[i], path) :: ProfileDiffers(path) in errors
  {
    errors, raised := [], false;
    for i := 0 to |sources|
      invariant ItemsWhole(sources[..i])
      invariant forall e: Error | e in errors :: e.ProfileDiffers? && exists k | 0 <= k < i :: SourceWrong(inventory, sources[k], e.what)
      invariant forall k, path | 0 <= k < i && SourceWrong(inventory, sources[k], path) :: ProfileDiffers(path) in errors
    {
      var source := sources[i];
      if source.path.None? || source.sha256.None? {
        return errors, true;
      }
      var path := source.path.value;
      if (if path in hashes then Some(hashes[path]) else None) != source.sha256 {
        assert SourceWrong(inventory, sources[i], path);
        errors := errors + [ProfileDiffers(path)];
      }
    }
    assert sources[..|sources|] == sources;
  }

  method CheckFallbacks(t: Tree, paths: seq<string>) returns (errors: seq<Error>)
    ensures forall e: Error :: e in errors <==> FallbackWrong(t, Some(paths), e)
  {
    errors := [];
    for i := 0 to |paths|
      invariant forall e: Error :: e in errors <==> e.Noncanonical? && e.what in paths[..i] && e.what !in t.Expected()
    {
      if paths[i] !in t.Expected() {
        errors := errors + [Noncanonical(paths[i])];
      }
    }
  }

  method CheckProfile(t: Tree, inventory: seq<Item>, hashes: map<string, string>, profile: Profile)
    returns (errors: seq<Error>, raised: bool)
    requires forall path :: LastHash(inventory, path) == if path in hashes then Some(hashes[path]) else None
    ensures raised <==> !ProfileWhole(profile)
    ensures forall e: Error | e in errors :: ProfileWrong(t, inventory, profile, e)
    ensures !raised ==> forall e: Error | ProfileWrong(t, inventory, profile, e) :: e in errors
  {
    if profile.sources.None? {
      return [], true;
    }
    errors, raised := CheckSources(inventory, hashes, profile.sources.value);
    if raised || profile.fallbackPaths.None? {
      return errors, true;
    }
    var more := CheckFallbacks(t, profile.fallbackPaths.value);
    errors := errors + more;
  }

  method CheckProfiles(t: Tree, inventory: seq<Item>, hashes: map<string, string>, profiles: seq<Profile>)
    returns (errors: seq<Error>, raised: bool)
    requires forall path :: LastHash(inventory, path) == if path in hashes then Some(hashes[path]) else None
    ensures raised <==> !ProfilesWhole(profiles)
    ensures forall e: Error | e in errors :: exists i | 0 <= i < |profiles| :: ProfileWrong(t, inventory, profiles[i], e)
    ensures !raised ==> forall i, e: Error | 0 <= i < |profiles| && ProfileWrong(t, inventory, profiles[i], e) :: e in errors
  {
    errors, raised := [], false;
    for i := 0 to |profiles|
      invariant ProfilesWhole(profiles[..i])
      invariant forall e: Error | e in errors :: exists k | 0 <= k < i :: ProfileWrong(t, inventory, profiles[k], e)
      invariant forall k, e: Error | 0 <= k < i && ProfileWrong(t, inventory, profiles[k], e) :: e in errors
    {
      var more;
      more, raised := CheckProfile(t, inventory, hashes, profiles[i]);
      errors := errors + more;
      if raised {
        return errors, true;
      }
    }
    assert profiles[..|profiles|] == profiles;
  }

  /** The `try` block. */
  method CheckManifest(t: Tree, m: Manifest) returns (errors: seq<Error>, raised: bool)
    ensures raised <==> !ManifestReadable(t, m)
    ensures forall e: Error | e in errors :: ManifestWrong(t, m, e)
    ensures !raised ==> forall e: Error | ManifestWrong(t, m, e) :: e in errors
  {
    if m.inventory.None? {
      return [], true;
    }
    var inventory := m.inventory.value;
    errors, raised := CheckInventory(t, inventory);
    if raised {
      return;
    }
    var hashes;
    hashes, raised := InventoryHashes(inventory);
    if raised || m.profiles.None? {
      return errors, true;
    }
    var more;
    more, raised := CheckProfiles(t, inventory, hashes, m.profiles.value);
    errors := errors + more;
    if raised || m.fallbackPaths.None? {
      return errors, true;
    }
    more := CheckFallbacks(t, m.fallbackPaths.value);
    errors := errors + more;
  }

  /** The finding is true of the repository. */
  predicate Wrong(t: Tree, e: Error) {
    || (e.AgentsMissing? && t.agents.None?)
    || (e.InvalidManifest? && (t.manifest.Err? || !ManifestReadable(t, t.manifest.value)))
    || (t.agents.Some? && PointerWrong(Pointers(t.agents.value), t.policies, e))
    || (t.manifest.Ok? && ManifestWrong(t, t.manifest.value, e))
  }

  /** Every finding is true; and when AGENTS.md exists every true one about the pointers is
      reported, and every one at all if the manifest can be read to its end. */
  method Check(t: Tree) returns (errors: seq<Error>)
    requires t.Valid()
    ensures forall e: Error | e in errors :: Wrong(t, e)
    ensures t.agents.None? ==> errors == [AgentsMissing]
    ensures t.agents.Some? ==> forall e: Error | PointerWrong(Pointers(t.agents.value), t.policies, e) :: e in errors
    ensures t.agents.Some? && Wrong(t, InvalidManifest) ==> InvalidManifest in errors
    ensures t.agents.Some? && !Wrong(t, InvalidManifest) ==> forall e: Error | Wrong(t, e) :: e in errors
    ensures errors == [] <==> Wired(t)
  {
    if t.agents.None? {
      return [AgentsMissing];
    }
    var pointers := Pointers(t.agents.value);
    var counted := CountPointers(pointers, t.policies);
    var unwired := FindUnwired(pointers, t.policies);
    var identities := CountIdentities(t.policies);
    errors := counted + unwired + identities;
    assert forall e: Error :: e in errors <==> PointerWrong(pointers, t.policies, e);
    if t.manifest.Ok? {
      var more, raised := CheckManifest(t, t.manifest.value);
      errors := errors + more;
      if raised {
        errors := errors + [InvalidManifest];
      }
    } else {
      errors := errors + [InvalidManifest];
    }
    if errors == [] {
      assert InvalidManifest !in errors && forall e: Error | Wrong(t, e) :: e in errors;
    } else {
      assert Wrong(t, errors[0]);
    }
    NothingWrongIffWired(t);
  }

  // --------------------------------------------------------------- what it is checked for

  /** No name twice. */
  predicate Distinct(names: seq<string>) {
    forall i, j | 0 <= i < j < |names| :: names[i] != names[j]
  }

  /** The source names a canonical file and carries the hash that this file has on disk. */
  predicate True(t: Tree, source: Item) {
    source.path.Some? && source.path.value in t.Expected() && source.sha256.Some? && source.sha256 == t.disk(source.path.value)
  }

  predicate AllTrue(t: Tree, sources: seq<Item>) {
    forall i | 0 <= i < |sources| :: True(t, sources[i])
  }

  predicate Canonical(t: Tree, paths: Option<seq<string>>) {
    paths.Some? && forall i | 0 <= i < |paths.value| :: paths.value[i] in t.Expected()
  }

  predicate ProfileTrue(t: Tree, profile: Profile) {
    profile.sources.Some? && AllTrue(t, profile.sources.value) && Canonical(t, profile.fallbackPaths)
  }

  predicate ManifestTrue(t: Tree, m: Manifest) {
    && m.inventory.Some? && multiset(PathsOf(m.inventory.value)) == multiset(Known(t.Expected())) && AllTrue(t, m.inventory.value)
    && m.profiles.Some? && (forall i | 0 <= i < |m.profiles.value| :: ProfileTrue(t, m.profiles.value[i]))
    && Canonical(t, m.fallbackPaths)
  }

  /** AGENTS.md points at every policy file once and at nothing else, no two policies have
      the same name but for the number, and the manifest is true: also every profile source
      carries the hash of the file on disk, which the code never compares it with. */
  predicate Wired(t: Tree) {
    && t.agents.Some? && multiset(Pointers(t.agents.value)) == multiset(t.policies)
    && Distinct(Identities(t.policies))
    && t.manifest.Ok? && ManifestTrue(t, t.manifest.value)
  }

  lemma {:induction false} DistinctIffSingle(names: seq<string>)
    ensures Distinct(names) <==> forall x :: multiset(names)[x] <= 1
  {
    if names != [] {
      var n := |names| - 1;
      DistinctIffSingle(names[..n]);
      assert names == names[..n] + [names[n]];
      if Distinct(names) {
        assert names[n] !in names[..n];
      } else if Distinct(names[..n]) {
        var i, j :| 0 <= i < j < |names| && names[i] == names[j];
        assert j == n && names[n] in names[..n];
        assert multiset(names)[names[n]] >= 2;
      } else {
        var x :| multiset(names[..n])[x] > 1;
        assert multiset(names)[x] > 1;
      }
    }
  }

  lemma PointersRightIffPermutation(pointers: seq<string>, policies: seq<string>)
    requires Distinct(policies)
    ensures (forall e: Error :: !PointerWrong(pointers, policies, e)) <==>
            multiset(pointers) == multiset(policies) && Distinct(Identities(policies))
  {
    DistinctIffSingle(policies);
    DistinctIffSingle(Identities(policies));
    if forall e: Error :: !PointerWrong(pointers, policies, e) {
      forall x ensures multiset(pointers)[x] == multiset(policies)[x] {
        assert !PointerWrong(pointers, policies, DuplicatePointer(x));
        assert !PointerWrong(pointers, policies, MissingTarget(x));
        assert !PointerWrong(pointers, policies, Unwired(x));
        assert x in pointers <==> x in multiset(pointers);
        assert x in policies <==> x in multiset(policies);
      }
      forall x ensures multiset(Identities(policies))[x] <= 1 {
        assert !PointerWrong(pointers, policies, DuplicateIdentity(x));
      }
    } else {
      var e :| PointerWrong(pointers, policies, e);
      assert e.what in pointers <==> e.what in multiset(pointers);
      assert e.what in policies <==> e.what in multiset(policies);
    }
  }

  /** What the dictionary holds was in the list. */
  lemma {:induction false} LastHashIsThere(items: seq<Item>, path: string) returns (i: int)
    ensures -1 <= i < |items|
    ensures i >= 0 ==> items[i] == Item(Some(path), LastHash(items, path))
    ensures i < 0 ==> LastHash(items, path) == None && Some(path) !in PathsOf(items)
  {
    if items == [] {
      i := -1;
    } else if items[|items| - 1].path == Some(path) {
      i := |items| - 1;
    } else {
      i := LastHashIsThere(items[..|items| - 1], path);
      if i < 0 {
        assert PathsOf(items) == PathsOf(items[..|items| - 1]) + [items[|items| - 1].path];
      }
    }
  }

  lemma ExpectedAsPaths(t: Tree, inventory: seq<Item>, path: string)
    requires multiset(PathsOf(inventory)) == multiset(Known(t.Expected()))
    ensures path in t.Expected() <==> Some(path) in PathsOf(inventory)
  {
    if path in t.Expected() {
      var i :| 0 <= i < |t.Expected()| && t.Expected()[i] == path;
      assert Known(t.Expected())[i] == Some(path);
      assert Some(path) in multiset(PathsOf(inventory));
    }
    if Some(path) in PathsOf(inventory) {
      assert Some(path) in multiset(Known(t.Expected()));
      assert Some(path) in Known(t.Expected());
    }
  }

  /** With a true inventory, agreement with the inventory is agreement with the disk. */
  lemma SourceRightIffTrue(t: Tree, inventory: seq<Item>, source: Item)
    requires multiset(PathsOf(inventory)) == multiset(Known(t.Expected())) && AllTrue(t, inventory)
    requires ItemWhole(source)
    ensures !SourceWrong(inventory, source, source.path.value) <==> True(t, source)
  {
    ExpectedAsPaths(t, inventory, source.path.value);
    var i := LastHashIsThere(inventory, source.path.value);
    if i >= 0 {
      assert True(t, inventory[i]);
      assert PathsOf(inventory)[i] == source.path;
    }
  }

  /** The inventory is checked and nothing is wrong with it just if it is true. */
  lemma InventoryRightIffTrue(t: Tree, inventory: seq<Item>)
    ensures InventoryReadable(t, inventory) && (forall e: Error :: !InventoryWrong(t, inventory, e)) <==>
            multiset(PathsOf(inventory)) == multiset(Known(t.Expected())) && AllTrue(t, inventory)
  {
    if InventoryReadable(t, inventory) && forall e: Error :: !InventoryWrong(t, inventory, e) {
      assert !InventoryWrong(t, inventory, InventoryDiffers);
      forall i | 0 <= i < |inventory| ensures True(t, inventory[i]) {
        var path := inventory[i].path.value;
        assert !InventoryWrong(t, inventory, StaleHash(path));
        ExpectedAsPaths(t, inventory, path);
        assert PathsOf(inventory)[i] == Some(path);
        assert !ItemWrong(t, inventory[i], path);
      }
    }
    if multiset(PathsOf(inventory)) == multiset(Known(t.Expected())) && AllTrue(t, inventory) {
      assert InventoryReadable(t, inventory) by {
        assert forall i | 0 <= i < |inventory| :: True(t, inventory[i]);
      }
      forall e: Error ensures !InventoryWrong(t, inventory, e) {
        assert e.StaleHash? ==> forall i | 0 <= i < |inventory| :: True(t, inventory[i]) && !ItemWrong(t, inventory[i], e.what);
      }
    }
  }

  lemma FallbacksRightIffCanonical(t: Tree, paths: Option<seq<string>>)
    ensures paths.Some? && (forall e: Error :: !FallbackWrong(t, paths, e)) <==> Canonical(t, paths)
  {
    if paths.Some? && forall e: Error :: !FallbackWrong(t, paths, e) {
      forall i | 0 <= i < |paths.value| ensures paths.value[i] in t.Expected() {
        assert !FallbackWrong(t, paths, Noncanonical(paths.value[i]));
      }
    }
  }

  lemma ProfileRightIffTrue(t: Tree, inventory: seq<Item>, profile: Profile)
    requires multiset(PathsOf(inventory)) == multiset(Known(t.Expected())) && AllTrue(t, inventory)
    ensures ProfileWhole(profile) && (forall e: Error :: !ProfileWrong(t, inventory, profile, e)) <==> ProfileTrue(t, profile)
  {
    FallbacksRightIffCanonical(t, profile.fallbackPaths);
    if ProfileWhole(profile) && forall e: Error :: !ProfileWrong(t, inventory, profile, e) {
      forall i | 0 <= i < |profile.sources.value| ensures True(t, profile.sources.value[i]) {
        var source := profile.sources.value[i];
        assert ItemWhole(source);
        assert !ProfileWrong(t, inventory, profile, ProfileDiffers(source.path.value));
        SourceRightIffTrue(t, inventory, source);
      }
      assert forall e: Error | FallbackWrong(t, profile.fallbackPaths, e) :: ProfileWrong(t, inventory, profile, e);
    }
    if ProfileTrue(t, profile) {
      forall i | 0 <= i < |profile.sources.value|
        ensures var source := profile.sources.value[i];
          ItemWhole(source) && !SourceWrong(inventory, source, source.path.value)
      {
        assert True(t, profile.sources.value[i]);
        SourceRightIffTrue(t, inventory, profile.sources.value[i]);
      }
    }
  }

  lemma ManifestRightIffTrue(t: Tree, m: Manifest)
    ensures ManifestReadable(t, m) && (forall e: Error :: !ManifestWrong(t, m, e)) <==> ManifestTrue(t, m)
  {
    if m.inventory.Some? && m.profiles.Some? {
      var inventory := m.inventory.value;
      InventoryRightIffTrue(t, inventory);
      FallbacksRightIffCanonical(t, m.fallbackPaths);
      if multiset(PathsOf(inventory)) == multiset(Known(t.Expected())) && AllTrue(t, inventory) {
        forall i | 0 <= i < |m.profiles.value|
          ensures ProfileWhole(m.profiles.value[i]) && (forall e: Error :: !ProfileWrong(t, inventory, m.profiles.value[i], e)) <==>
                  ProfileTrue(t, m.profiles.value[i])
        {
          ProfileRightIffTrue(t, inventory, m.profiles.value[i]);
        }
      }
      RightInParts(t, m);
    }
  }

  /** Nothing is wrong with the manifest just if nothing is wrong with any part of it. */
  lemma RightInParts(t: Tree, m: Manifest)
    requires m.inventory.Some? && m.profiles.Some?
    ensures (forall e: Error :: !ManifestWrong(t, m, e)) <==>
            && (forall e: Error :: !InventoryWrong(t, m.inventory.value, e))
            && (forall i, e: Error | 0 <= i < |m.profiles.value| :: !ProfileWrong(t, m.inventory.value, m.profiles.value[i], e))
            && (forall e: Error :: !FallbackWrong(t, m.fallbackPaths, e))
  {
    if forall e: Error :: !ManifestWrong(t, m, e) {
      forall e: Error ensures !InventoryWrong(t, m.inventory.value, e) && !FallbackWrong(t, m.fallbackPaths, e) {
        assert !ManifestWrong(t, m, e);
      }
      forall i, e: Error | 0 <= i < |m.profiles.value| ensures !ProfileWrong(t, m.inventory.value, m.profiles.value[i], e) {
        assert !ManifestWrong(t, m, e);
      }
    }
  }

  /** There is nothing to report just if the repository is wired. */
  lemma NothingWrongIffWired(t: Tree)
    requires t.Valid()
    ensures (forall e: Error :: !Wrong(t, e)) <==> Wired(t)
  {
    if t.agents.Some? && t.manifest.Ok? {
      var pointers := Pointers(t.agents.value);
      PointersRightIffPermutation(pointers, t.policies);
      ManifestRightIffTrue(t, t.manifest.value);
      if forall e: Error :: !Wrong(t, e) {
        assert !Wrong(t, InvalidManifest);
        forall e: Error ensures !PointerWrong(pointers, t.policies, e) && !ManifestWrong(t, t.manifest.value, e) {
          assert !Wrong(t, e);
        }
      }
    } else {
      assert Wrong(t, AgentsMissing) || Wrong(t, InvalidManifest);
    }
  }
}
