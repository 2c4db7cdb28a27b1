/** The Cargo.lock normalization of scripts/build_wake_client.py. */
module Lockfile {
  import opened Text

  const DELIMITER: string := "[[package]]"
  const PLACEHOLDER: string := "version = \"0.0.0\""
  const SOURCE: string := "\nsource = "

  function VersionLine(version: string): string {
    "version = \"" + version + "\""
  }

  /** The block as it is written back: a block without a source line gets the version. */
  function Normalized(block: string, version: string): string {
    if Contains(block, SOURCE) then block else ReplaceFirst(block, PLACEHOLDER, VersionLine(version))
  }

  function NormalizedAll(blocks: seq<string>, version: string): (r: seq<string>)
    ensures |r| == |blocks| && forall k | 0 <= k < |r| :: r[k] == Normalized(blocks[k], version)
  {
    if blocks == [] then [] else [Normalized(blocks[0], version)] + NormalizedAll(blocks[1..], version)
  }

  function Rewrite(text: string, version: string): string {
    Join(NormalizedAll(Split(text, DELIMITER), version), DELIMITER)
  }

  /** A version in the usual sense: no bracket, quote, blank or line break. */
  predicate Plain(version: string) {
    '[' !in version && '"' !in version && ' ' !in version && '\n' !in version
  }

  lemma DelimiterIsBorderless()
    ensures Borderless(DELIMITER)
  {
    forall k | 0 < k < |DELIMITER| ensures DELIMITER[k..] != DELIMITER[..|DELIMITER| - k] {
      if k == 1 {
        assert DELIMITER[k..][1] == 'p' && DELIMITER[..|DELIMITER| - k][1] == '[';
      } else {
        assert DELIMITER[k..][0] == DELIMITER[k] != '[';
      }
    }
  }

  lemma VersionLineAvoided(version: string)
    requires Plain(version)
    ensures Avoids(DELIMITER, VersionLine(version))
    ensures Avoids(SOURCE, VersionLine(version))
  {
  }

  /** The parts of a block around its first placeholder. */
  lemma Parts(block: string, version: string) returns (left: string, right: string)
    requires !Contains(block, SOURCE) && Contains(block, PLACEHOLDER)
    ensures block == left + PLACEHOLDER + right
    ensures Normalized(block, version) == left + VersionLine(version) + right
    ensures Find(block, PLACEHOLDER) == |left|
  {
    var i := Find(block, PLACEHOLDER);
    left, right := block[..i], block[i + |PLACEHOLDER|..];
    assert block == left + block[i..i + |PLACEHOLDER|] + right;
  }

  /** Normalizing brings in no delimiter and no source line. */
  lemma NormalizedStaysFree(block: string, version: string, d: string)
    requires Plain(version) && (d == DELIMITER || d == SOURCE)
    requires !Contains(block, d) && !Contains(block, SOURCE)
    ensures !Contains(Normalized(block, version), d)
  {
    if Contains(block, PLACEHOLDER) {
      var left, right := Parts(block, version);
      VersionLineAvoided(version);
      forall i | OccursAt(Normalized(block, version), i, d) ensures false {
        OccursBeside(left, VersionLine(version), right, i, d);
        OccursInWhole(left, PLACEHOLDER, right, i, d);
        OccursInWhole(left, PLACEHOLDER, right, i - |left| - |VersionLine(version)|, d);
      }
    }
  }

  /** The rewrite keeps the number and the order of the blocks: splitting its result
      gives the blocks of the input, each normalized. */
  lemma RewriteKeepsBlocks(text: string, version: string)
    requires Plain(version)
    ensures Split(Rewrite(text, version), DELIMITER) == NormalizedAll(Split(text, DELIMITER), version)
  {
    var blocks := Split(text, DELIMITER);
    var written := NormalizedAll(blocks, version);
    SplitIsFree(text, DELIMITER);
    DelimiterIsBorderless();
    forall k | 0 <= k < |written| ensures !Contains(written[k], DELIMITER) && EndsBlock(written[k], DELIMITER) {
      assert blocks[k] in blocks;
      if !Contains(blocks[k], SOURCE) {
        NormalizedStaysFree(blocks[k], version, DELIMITER);
      }
      BorderlessEndsBlock(written[k], DELIMITER);
    }
    SplitJoin(written, DELIMITER);
  }

  /** The text of a block is kept but for one placeholder at most, and is kept whole when
      the block has a source line or no placeholder. */
  lemma NormalizedChangesOnePlaceholder(block: string, version: string)
    ensures Contains(block, SOURCE) || !Contains(block, PLACEHOLDER) ==> Normalized(block, version) == block
    ensures !Contains(block, SOURCE) && Contains(block, PLACEHOLDER) ==>
              exists left, right ::
                && block == left + PLACEHOLDER + right
                && Normalized(block, version) == left + "version = \"" + version + "\"" + right
                && !Contains(left, PLACEHOLDER)
  {
    if !Contains(block, SOURCE) && Contains(block, PLACEHOLDER) {
      var left, right := Parts(block, version);
      forall j | OccursAt(left, j, PLACEHOLDER) ensures false {
        OccursInWhole(left, PLACEHOLDER, right, j, PLACEHOLDER);
      }
    }
  }

  // ------------------------------------------------------------------- idempotence

  /** At most one placeholder: none is left after the first. */
  predicate AtMostOnePlaceholder(block: string) {
    var i := Find(block, PLACEHOLDER);
    i >= 0 ==> !Contains(block[i + |PLACEHOLDER|..], PLACEHOLDER)
  }

  /** A placeholder starts neither inside the first 11 characters of a version line, nor so
      far before it that it reaches into it. */
  lemma PlaceholderNotAtHead(s: string, version: string, i: int, start: int)
    requires OccursAt(s, start, VersionLine(version)) && OccursAt(s, i, PLACEHOLDER)
    ensures i + |PLACEHOLDER| <= start || i == start || i - start >= 11
  {
    var line := VersionLine(version);
    assert forall k | 1 <= k < 11 :: line[k] != 'v';
    assert forall k | 1 <= k < |PLACEHOLDER| :: PLACEHOLDER[k] != 'v';
    OccursChar(s, start, line, 0);
    OccursChar(s, i, PLACEHOLDER, start - i);
    OccursChar(s, i, PLACEHOLDER, 0);
    OccursChar(s, start, line, i - start);
  }

  lemma NoBlankInside(version: string, k: int)
    requires Plain(version)
    ensures 0 <= k < |version| ==> VersionLine(version)[11 + k] != ' '
  {
    if 0 <= k < |version| {
      assert VersionLine(version)[11 + k] == version[k] && version[k] in version;
    }
  }

  /** Nor does it start behind: it would reach the closing quote, and lack its own blank. */
  lemma PlaceholderNotAtTail(s: string, version: string, i: int, start: int)
    requires Plain(version)
    requires OccursAt(s, start, VersionLine(version)) && OccursAt(s, i, PLACEHOLDER)
    ensures i - start < 11 || i - start >= 12 + |version|
  {
    var line := VersionLine(version);
    var at := i - start;
    var quote := 11 + |version| - at;
    assert line[11 + |version|] == '"';
    assert forall k | 0 <= k <= 7 :: PLACEHOLDER[k] == "version "[k];
    OccursChar(s, start, line, at + quote);
    OccursChar(s, i, PLACEHOLDER, quote);
    OccursChar(s, start, line, at + 7);
    OccursChar(s, i, PLACEHOLDER, 7);
    NoBlankInside(version, at - 4);
  }

  /** A placeholder does not overlap a version line that is put in, nor is one made by it. */
  lemma PlaceholderBeside(left: string, version: string, right: string, i: int)
    requires Plain(version) && version != "0.0.0"
    requires OccursAt(left + VersionLine(version) + right, i, PLACEHOLDER)
    ensures OccursAt(left, i, PLACEHOLDER) || OccursAt(right, i - |left| - |VersionLine(version)|, PLACEHOLDER)
  {
    var line := VersionLine(version);
    var s := left + line + right;
    assert s[..|left|] == left && s[|left| + |line|..|s|] == right;
    assert OccursAt(s, |left|, line);
    PlaceholderNotAtHead(s, version, i, |left|);
    PlaceholderNotAtTail(s, version, i, |left|);
    OccursInPart(s, i, PLACEHOLDER, 0, |left|);
    OccursInPart(s, i, PLACEHOLDER, |left| + |line|, |s|);
    if i == |left| {
      PlaceholderIsItsVersion(s, version, |left|);
    }
  }

  lemma PlaceholderIsItsVersion(s: string, version: string, i: nat)
    requires OccursAt(s, i, VersionLine(version)) && OccursAt(s, i, PLACEHOLDER)
    requires '"' !in version
    ensures version == "0.0.0"
  {
    var line := VersionLine(version);
    assert forall k | 0 <= k < |version| :: version[k] == line[11 + k] && version[k] in version;
    OccursChar(s, i, line, 16);
    OccursChar(s, i, PLACEHOLDER, 16);
    OccursChar(s, i, line, 11 + |version|);
    OccursChar(s, i, PLACEHOLDER, 11 + |version|);
    if |version| == 5 {
      forall k | 0 <= k < 5 ensures version[k] == "0.0.0"[k] {
        OccursChar(s, i, line, 11 + k);
        OccursChar(s, i, PLACEHOLDER, 11 + k);
      }
    }
  }

  /** Normalizing a block again changes nothing exactly when it has at most one placeholder. */
  lemma NormalizedTwice(block: string, version: string)
    requires Plain(version) && version != "0.0.0" && !Contains(block, SOURCE)
    ensures Normalized(Normalized(block, version), version) == Normalized(block, version) <==> AtMostOnePlaceholder(block)
  {
    if Contains(block, PLACEHOLDER) {
      var left, right := Parts(block, version);
      var once := Normalized(block, version);
      NormalizedStaysFree(block, version, SOURCE);
      assert block[|left| + |PLACEHOLDER|..] == right;
      if Contains(once, PLACEHOLDER) {
        var i := Find(once, PLACEHOLDER);
        PlaceholderBeside(left, version, right, i);
        OccursInWhole(left, PLACEHOLDER, right, i, PLACEHOLDER);
        assert Contains(right, PLACEHOLDER);
        var left', right' := Parts(once, version);
        ReplacementShows(left', right', version);
      } else {
        forall i | OccursAt(right, i, PLACEHOLDER) ensures false {
          OccursInWhole(left, VersionLine(version), right, i, PLACEHOLDER);
        }
      }
    }
  }

  lemma ReplacementShows(left: string, right: string, version: string)
    requires Plain(version) && version != "0.0.0"
    ensures left + VersionLine(version) + right != left + PLACEHOLDER + right
  {
    var a, b := left + VersionLine(version) + right, left + PLACEHOLDER + right;
    if a == b {
      assert a[|left|..|left| + |VersionLine(version)|] == VersionLine(version);
      assert b[|left|..|left| + |PLACEHOLDER|] == PLACEHOLDER;
      PlaceholderIsItsVersion(a, version, |left|);
    }
  }

  lemma NoVersionAtAll(block: string)
    ensures Normalized(block, "0.0.0") == block
  {
    if !Contains(block, SOURCE) && Contains(block, PLACEHOLDER) {
      var left, right := Parts(block, "0.0.0");
      assert VersionLine("0.0.0") == PLACEHOLDER;
    }
  }

  /** The rewrite is idempotent on a lock file exactly when every block without a source
      line has at most one placeholder, or the version is the placeholder's own. */
  lemma RewriteTwice(text: string, version: string)
    requires Plain(version)
    ensures Rewrite(Rewrite(text, version), version) == Rewrite(text, version) <==>
              version == "0.0.0" ||
              forall block | block in Split(text, DELIMITER) && !Contains(block, SOURCE) :: AtMostOnePlaceholder(block)
  {
    var blocks := Split(text, DELIMITER);
    var once := NormalizedAll(blocks, version);
    var twice := NormalizedAll(once, version);
    RewriteKeepsBlocks(text, version);
    RewriteKeepsBlocks(Rewrite(text, version), version);
    assert Rewrite(Rewrite(text, version), version) == Rewrite(text, version) <==> twice == once;
    forall k | 0 <= k < |blocks|
      ensures twice[k] == once[k] <==> version == "0.0.0" || Contains(blocks[k], SOURCE) || AtMostOnePlaceholder(blocks[k])
    {
      if version == "0.0.0" {
        NoVersionAtAll(once[k]);
      } else if !Contains(blocks[k], SOURCE) {
        NormalizedTwice(blocks[k], version);
      }
    }
    if twice == once && version != "0.0.0" {
      forall block | block in blocks && !Contains(block, SOURCE) ensures AtMostOnePlaceholder(block) {
        var k :| 0 <= k < |blocks| && blocks[k] == block;
        assert twice[k] == once[k];
      }
    }
  }

  /** One package with two placeholders on one line. */
  const DOUBLED: string := PLACEHOLDER + PLACEHOLDER

  lemma DoubledIsOneBlock()
    ensures Split(DOUBLED, DELIMITER) == [DOUBLED] && !Contains(DOUBLED, SOURCE)
    ensures !AtMostOnePlaceholder(DOUBLED)
  {
    assert forall k | 0 <= k < |PLACEHOLDER| :: PLACEHOLDER[k] != '[' && PLACEHOLDER[k] != '\n';
    forall i ensures !OccursAt(DOUBLED, i, DELIMITER) && !OccursAt(DOUBLED, i, SOURCE) {
      OccursChar(DOUBLED, i, DELIMITER, 0);
      OccursChar(DOUBLED, i, SOURCE, 0);
    }
    assert DOUBLED[..|PLACEHOLDER|] == PLACEHOLDER && DOUBLED[|PLACEHOLDER|..] == PLACEHOLDER;
    FoundFirst(DOUBLED, PLACEHOLDER, 0);
    FoundFirst(PLACEHOLDER, PLACEHOLDER, 0);
  }

  /** So the rewrite is not idempotent: each time another placeholder of this text goes. */
  lemma DoubledChangesAgain(version: string)
    requires Plain(version) && version != "0.0.0"
    ensures Rewrite(Rewrite(DOUBLED, version), version) != Rewrite(DOUBLED, version)
  {
    DoubledIsOneBlock();
    RewriteTwice(DOUBLED, version);
    assert DOUBLED in Split(DOUBLED, DELIMITER);
  }

  // -------------------------------------------------------------- the pinned hashes

  /** The gate of the build: an archived lock file is rewritten, and whatever is there
      then must have the pinned hash. */
  function Gate(text: string, sha: string -> string, archived: string, pinned: string, version: string): (string, bool) {
    var written := if sha(text) == archived then Rewrite(text, version) else text;
    (written, sha(written) == pinned)
  }

  class LockFile {
    var text: string

    constructor (text: string)
      ensures this.text == text
    {
      this.text := text;
    }

    /** Rewrites the file in place and checks it; false is the parser's error exit. */
    method Normalize(sha: string -> string, archived: string, pinned: string, version: string) returns (ok: bool)
      modifies this
      ensures (text, ok) == Gate(old(text), sha, archived, pinned, version)
      ensures text == if sha(old(text)) == archived then Rewrite(old(text), version) else old(text)
      ensures ok <==> sha(text) == pinned
    {
      if sha(text) == archived {
        text := Rewrite(text, version);
      }
      ok := sha(text) == pinned;
    }
  }

  /** The gate refuses every file that does not have the pinned hash in the end: one that is not
      the archived one and not the pinned one already, and one whose rewrite is not. */
  lemma GatePassesIff(text: string, sha: string -> string, archived: string, pinned: string, version: string)
    ensures var (written, ok) := Gate(text, sha, archived, pinned, version);
      && (ok <==> if sha(text) == archived then sha(Rewrite(text, version)) == pinned else sha(text) == pinned)
      && (written != text ==> sha(text) == archived)
  {
  }

  /** Once the gate is passed it stays passed, and a second build leaves the file alone,
      even when the two pinned hashes are the same. */
  lemma GateTwice(text: string, sha: string -> string, archived: string, pinned: string, version: string)
    requires forall a, b :: sha(a) == sha(b) ==> a == b
    requires Gate(text, sha, archived, pinned, version).1
    ensures Gate(Gate(text, sha, archived, pinned, version).0, sha, archived, pinned, version)
         == Gate(text, sha, archived, pinned, version)
  {
    var written := Gate(text, sha, archived, pinned, version).0;
    if sha(written) == archived {
      assert sha(text) == sha(written);
    }
  }
}
