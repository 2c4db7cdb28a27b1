/** String searching, splitting and joining as Python does them. */
module Text {

  /** `d` occurs in `s` at `i`. */
  ghost predicate OccursAt(s: string, i: int, d: string) {
    0 <= i && i + |d| <= |s| && s[i..i + |d|] == d
  }

  lemma OccursChar(s: string, i: int, d: string, k: int)
    ensures OccursAt(s, i, d) && 0 <= k < |d| ==> s[i + k] == d[k]
  {
    if OccursAt(s, i, d) && 0 <= k < |d| {
      assert s[i..i + |d|][k] == d[k];
    }
  }

  /** To occur within a part is to occur there in the whole. */
  lemma OccursInPart(s: string, i: int, d: string, from: int, to: int)
    ensures 0 <= from <= i && i + |d| <= to <= |s| ==> (OccursAt(s[from..to], i - from, d) <==> OccursAt(s, i, d))
  {
    if 0 <= from <= i && i + |d| <= to <= |s| {
      var part := s[from..to];
      assert forall k | 0 <= k < |part| :: part[k] == s[from + k];
      assert part[i - from..i - from + |d|] == s[i..i + |d|];
    }
  }

  /** `s.find(d)` */
  function Find(s: string, d: string): (i: int)
    ensures i >= 0 ==> OccursAt(s, i, d) && forall j | 0 <= j < i :: !OccursAt(s, j, d)
    ensures i < 0 ==> i == -1 && forall j :: !OccursAt(s, j, d)
  {
    if |s| < |d| then -1
    else if s[..|d|] == d then 0
    else if s == "" then -1
    else
      var i := Find(s[1..], d);
      assert forall j | j > 0 :: OccursAt(s, j, d) <==> OccursAt(s[1..], j - 1, d) by {
        forall j | j > 0 ensures OccursAt(s, j, d) <==> OccursAt(s[1..], j - 1, d) {
          OccursInPart(s, j, d, 1, |s|);
        }
      }
      if i < 0 then -1 else i + 1
  }

  /** `d in s` */
  predicate Contains(s: string, d: string) {
    Find(s, d) >= 0
  }

  lemma FoundFirst(s: string, d: string, i: int)
    requires OccursAt(s, i, d)
    requires forall j | 0 <= j < i :: !OccursAt(s, j, d)
    ensures Find(s, d) == i
  {
  }

  /** `s.split(d)` */
  function Split(s: string, d: string): (blocks: seq<string>)
    requires d != ""
    ensures blocks != []
    decreases |s|
  {
    var i := Find(s, d);
    if i < 0 then [s] else [s[..i]] + Split(s[i + |d|..], d)
  }

  /** `d.join(blocks)` */
  function Join(blocks: seq<string>, d: string): string {
    if blocks == [] then ""
    else if |blocks| == 1 then blocks[0]
    else blocks[0] + d + Join(blocks[1..], d)
  }

  lemma JoinMore(first: string, rest: seq<string>, d: string)
    requires rest != []
    ensures Join([first] + rest, d) == first + d + Join(rest, d)
  {
    assert ([first] + rest)[1..] == rest;
  }

  lemma CutInThree(s: string, i: nat, j: nat)
    requires i <= j <= |s|
    ensures s[..i] + s[i..j] + s[j..] == s
  {
  }

  lemma {:induction false} JoinSplit(s: string, d: string)
    requires d != ""
    ensures Join(Split(s, d), d) == s
    decreases |s|
  {
    var i := Find(s, d);
    if i >= 0 {
      JoinSplit(s[i + |d|..], d);
      JoinMore(s[..i], Split(s[i + |d|..], d), d);
      CutInThree(s, i, i + |d|);
    }
  }

  lemma {:induction false} SplitIsFree(s: string, d: string)
    requires d != ""
    ensures forall b | b in Split(s, d) :: !Contains(b, d)
    decreases |s|
  {
    var i := Find(s, d);
    if i >= 0 {
      SplitIsFree(s[i + |d|..], d);
      forall j ensures !OccursAt(s[..i], j, d) {
        OccursInPart(s, j, d, 0, i);
      }
    }
  }

  /** A separator that follows `block` is found there and not before. */
  ghost predicate EndsBlock(block: string, d: string) {
    Find(block + d, d) == |block|
  }

  lemma FindAfterBlock(block: string, d: string, rest: string)
    requires d != "" && EndsBlock(block, d)
    ensures Find(block + d + rest, d) == |block|
  {
    var s := block + d + rest;
    assert s[|block|..|block| + |d|] == d;
    forall j | 0 <= j < |block| ensures !OccursAt(s, j, d) {
      assert s[..|block| + |d|] == block + d;
      OccursInPart(s, j, d, 0, |block| + |d|);
    }
    FoundFirst(s, d, |block|);
  }

  lemma SplitBlock(block: string, d: string, rest: string)
    requires d != "" && EndsBlock(block, d)
    ensures Split(block + d + rest, d) == [block] + Split(rest, d)
  {
    var s := block + d + rest;
    FindAfterBlock(block, d, rest);
    assert s[..|block|] == block && s[|block| + |d|..] == rest;
  }

  lemma {:induction false} SplitJoin(blocks: seq<string>, d: string)
    requires d != "" && blocks != []
    requires forall k | 0 <= k < |blocks| - 1 :: EndsBlock(blocks[k], d)
    requires !Contains(blocks[|blocks| - 1], d)
    ensures Split(Join(blocks, d), d) == blocks
  {
    if |blocks| > 1 {
      SplitJoin(blocks[1..], d);
      SplitBlock(blocks[0], d, Join(blocks[1..], d));
    }
  }

  /** No proper prefix of `d` is also a suffix of it. */
  ghost predicate Borderless(d: string) {
    forall k | 0 < k < |d| :: d[k..] != d[..|d| - k]
  }

  lemma BorderlessEndsBlock(block: string, d: string)
    requires d != "" && Borderless(d) && !Contains(block, d)
    ensures EndsBlock(block, d)
  {
    var s := block + d;
    assert s[|block|..|block| + |d|] == d;
    assert s[..|block|] == block;
    forall j | 0 <= j < |block| ensures !OccursAt(s, j, d) {
      OccursInPart(s, j, d, 0, |block|);
      if j + |d| > |block| {
        var k := |block| - j;
        assert s[j..j + |d|][k..] == s[|block|..j + |d|] == d[..|d| - k];
        assert d[k..] != d[..|d| - k];
      }
    }
    FoundFirst(s, d, |block|);
  }

  /** `s.replace(old, new, 1)` */
  function ReplaceFirst(s: string, from: string, to: string): string {
    var i := Find(s, from);
    if i < 0 then s else s[..i] + to + s[i + |from|..]
  }

  /** `d` does not contain the first character of `x` and does not start inside `x`. */
  ghost predicate Avoids(d: string, x: string) {
    d != "" && x != "" && x[0] !in d && d[0] !in x
  }

  /** Then `d` occurs to the left of `x` or to the right of it. */
  lemma OccursBeside(left: string, x: string, right: string, i: int, d: string)
    requires Avoids(d, x)
    requires OccursAt(left + x + right, i, d)
    ensures OccursAt(left, i, d) || OccursAt(right, i - |left| - |x|, d)
  {
    var s := left + x + right;
    assert s[..|left|] == left && s[|left| + |x|..|s|] == right;
    assert forall k | |left| <= k < |left| + |x| :: s[k] == x[k - |left|];
    OccursChar(s, i, d, |left| - i);
    OccursChar(s, i, d, 0);
    OccursInPart(s, i, d, 0, |left|);
    OccursInPart(s, i, d, |left| + |x|, |s|);
  }

  lemma OccursInWhole(left: string, x: string, right: string, i: int, d: string)
    ensures OccursAt(left, i, d) ==> OccursAt(left + x + right, i, d)
    ensures OccursAt(right, i, d) ==> OccursAt(left + x + right, |left| + |x| + i, d)
  {
    var s := left + x + right;
    if OccursAt(left, i, d) {
      assert s[i..i + |d|] == left[i..i + |d|];
    }
    if OccursAt(right, i, d) {
      assert s[|left| + |x| + i..|left| + |x| + i + |d|] == right[i..i + |d|];
    }
  }

  /** The ASCII white space. */
  predicate IsBlank(c: char) {
    c == ' ' || '\t' <= c <= '\r' || '\U{1C}' <= c <= '\U{1F}'
  }

  /** `s.strip()`, for the ASCII white space. */
  function Strip(s: string): string
    decreases |s|
  {
    if s == "" then s
    else if IsBlank(s[0]) then Strip(s[1..])
    else if IsBlank(s[|s| - 1]) then Strip(s[..|s| - 1])
    else s
  }

  /** What is taken away is blank, and what is left does not begin or end with a blank. */
  lemma {:induction false} StripIs(s: string) returns (left: string, right: string)
    ensures s == left + Strip(s) + right
    ensures forall c | c in left + right :: IsBlank(c)
    ensures Strip(s) != "" ==> !IsBlank(Strip(s)[0]) && !IsBlank(Strip(s)[|Strip(s)| - 1])
    decreases |s|
  {
    left, right := "", "";
    if s != "" {
      if IsBlank(s[0]) {
        left, right := StripIs(s[1..]);
        left := [s[0]] + left;
      } else if IsBlank(s[|s| - 1]) {
        left, right := StripIs(s[..|s| - 1]);
        right := right + [s[|s| - 1]];
      }
    }
  }

  lemma {:induction false} StripTail(s: string, tail: string)
    requires s != "" && !IsBlank(s[0]) && !IsBlank(s[|s| - 1])
    requires forall c | c in tail :: IsBlank(c)
    ensures Strip(s + tail) == s
    decreases |tail|
  {
    if tail == "" {
      assert s + tail == s;
    } else {
      var shorter := tail[..|tail| - 1];
      assert (s + tail)[..|s + tail| - 1] == s + shorter;
      StripTail(s, shorter);
    }
  }
}
