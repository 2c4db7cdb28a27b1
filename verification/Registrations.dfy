/** `registrations` of scripts/cleanup_worktrees.py: the porcelain list of worktrees. */
module Registrations {
  import opened Text

  type Row = map<string, string>
  type Field = (string, string)

  const BLANK_LINE: string := "\n\n"

  /** Where `str.splitlines` breaks a text. */
  predicate IsBreak(c: char) {
    || c == '\n' || c == '\r' || '\U{0B}' <= c <= '\U{0C}' || '\U{1C}' <= c <= '\U{1E}'
    || c == '\U{85}' || '\U{2028}' <= c <= '\U{2029}'
  }

  function FirstBreak(s: string): (i: nat)
    ensures i <= |s| && (forall j | 0 <= j < i :: !IsBreak(s[j])) && (i < |s| ==> IsBreak(s[i]))
  {
    if s == "" || IsBreak(s[0]) then 0 else 1 + FirstBreak(s[1..])
  }

  /** `s.splitlines()` */
  function SplitLines(s: string): seq<string>
    decreases |s|
  {
    if s == "" then []
    else
      var i := FirstBreak(s);
      if i == |s| then [s]
      else if s[i] == '\r' && i + 1 < |s| && s[i + 1] == '\n' then [s[..i]] + SplitLines(s[i + 2..])
      else [s[..i]] + SplitLines(s[i + 1..])
  }

  function ParseLine(line: string): Field {
    var i := Find(line, " ");
    if i < 0 then (line, "") else (line[..i], line[i + 1..])
  }

  /** `dict(fields)`: a later field replaces an earlier one of the same name. */
  function Dict(fields: seq<Field>): Row {
    if fields == [] then map[]
    else
      var last := fields[|fields| - 1];
      Dict(fields[..|fields| - 1])[last.0 := last.1]
  }

  function ParseLines(lines: seq<string>): (fields: seq<Field>)
    ensures |fields| == |lines| && forall k | 0 <= k < |lines| :: fields[k] == ParseLine(lines[k])
  {
    if lines == [] then [] else [ParseLine(lines[0])] + ParseLines(lines[1..])
  }

  function RowsOf(blocks: seq<string>): seq<Row> {
    if blocks == [] then []
    else
      var row := Dict(ParseLines(SplitLines(blocks[0])));
      (if "worktree" in row then [row] else []) + RowsOf(blocks[1..])
  }

  /** The rows in the output of `git worktree list --porcelain`. */
  function Parse(output: string): seq<Row> {
    RowsOf(Split(Strip(output), BLANK_LINE))
  }

  // ----------------------------------------------------------------------- printing

  function PrintField(field: Field): string {
    if field.1 == "" then field.0 else field.0 + " " + field.1
  }

  function PrintLines(fields: seq<Field>): (lines: seq<string>)
    ensures |lines| == |fields| && forall k | 0 <= k < |lines| :: lines[k] == PrintField(fields[k])
  {
    if fields == [] then [] else [PrintField(fields[0])] + PrintLines(fields[1..])
  }

  function PrintRow(fields: seq<Field>): string {
    Join(PrintLines(fields), "\n")
  }

  function PrintRows(rows: seq<seq<Field>>): (blocks: seq<string>)
    ensures |blocks| == |rows| && forall k | 0 <= k < |rows| :: blocks[k] == PrintRow(rows[k])
  {
    if rows == [] then [] else [PrintRow(rows[0])] + PrintRows(rows[1..])
  }

  /** The output that lists `rows`: a blank line between two rows and line ends after the last. */
  function Print(rows: seq<seq<Field>>): string {
    Join(PrintRows(rows), BLANK_LINE) + "\n\n"
  }

  /** A name is a nonempty word, and a value does not break the line. */
  predicate Printable(field: Field) {
    && field.0 != ""
    && (forall c | c in field.0 :: !IsBlank(c) && !IsBreak(c))
    && (forall c | c in field.1 :: !IsBreak(c))
  }

  predicate PrintableRow(fields: seq<Field>) {
    fields != [] && forall k | 0 <= k < |fields| :: Printable(fields[k])
  }

  /** The very last value does not end in a blank, which `strip` would take away. */
  predicate EndsClean(rows: seq<seq<Field>>) {
    rows != [] && rows[|rows| - 1] != [] &&
    var last := rows[|rows| - 1];
    var value := last[|last| - 1].1;
    value != "" ==> !IsBlank(value[|value| - 1])
  }

  function Dicts(rows: seq<seq<Field>>): seq<Row> {
    if rows == [] then []
    else
      var row := Dict(rows[0]);
      (if "worktree" in row then [row] else []) + Dicts(rows[1..])
  }

  lemma ParsePrintedField(field: Field)
    requires Printable(field)
    ensures ParseLine(PrintField(field)) == field
    ensures PrintField(field) != "" && forall c | c in PrintField(field) :: !IsBreak(c)
    ensures PrintField(field)[0] == field.0[0]
  {
    var line := PrintField(field);
    assert forall j | 0 <= j < |field.0| :: field.0[j] != ' ' by {
      forall j | 0 <= j < |field.0| ensures field.0[j] != ' ' {
        assert field.0[j] in field.0;
      }
    }
    if field.1 == "" {
      forall j ensures !OccursAt(line, j, " ") {
        OccursChar(line, j, " ", 0);
      }
    } else {
      assert line[|field.0|..|field.0| + 1] == " ";
      forall j | 0 <= j < |field.0| ensures !OccursAt(line, j, " ") {
        OccursChar(line, j, " ", 0);
      }
      FoundFirst(line, " ", |field.0|);
      assert line[..|field.0|] == field.0 && line[|field.0| + 1..] == field.1;
    }
  }

  /** Lines that are nonempty and unbroken. */
  predicate Lines(lines: seq<string>) {
    forall k | 0 <= k < |lines| :: lines[k] != "" && forall c | c in lines[k] :: !IsBreak(c)
  }

  lemma FirstBreakIs(s: string, i: nat)
    requires i <= |s| && (forall j | 0 <= j < i :: !IsBreak(s[j])) && (i < |s| ==> IsBreak(s[i]))
    ensures FirstBreak(s) == i
  {
  }

  /** A line ends at its first break; a carriage return and a line feed are one. */
  lemma LineEnds(line: string, end: string, rest: string)
    requires forall c | c in line :: !IsBreak(c)
    requires end == "\r\n" || (|end| == 1 && IsBreak(end[0]) && (end == "\r" ==> !("\n" <= rest)))
    ensures SplitLines(line + end + rest) == [line] + SplitLines(rest)
  {
    var s := line + end + rest;
    assert s[|line|] == end[0] && (|s| > |line| + 1 ==> s[|line| + 1] == (end + rest)[1]);
    FirstBreakIs(s, |line|);
    assert s[..|line|] == line && s[|line| + |end|..] == rest;
  }

  /** A dictionary has the last value of each name. */
  lemma {:induction false} DictIs(fields: seq<Field>, name: string)
    ensures name !in Dict(fields) <==> forall k | 0 <= k < |fields| :: fields[k].0 != name
    ensures forall k | 0 <= k < |fields| && fields[k].0 == name && (forall j | k < j < |fields| :: fields[j].0 != name) ::
              name in Dict(fields) && Dict(fields)[name] == fields[k].1
  {
    if fields != [] {
      var before := fields[..|fields| - 1];
      DictIs(before, name);
      assert forall k | 0 <= k < |before| :: before[k] == fields[k];
    }
  }

  lemma SplitOneLine(line: string, rest: string)
    requires forall c | c in line :: !IsBreak(c)
    ensures SplitLines(line + "\n" + rest) == [line] + SplitLines(rest)
  {
    var s := line + "\n" + rest;
    FirstBreakIs(s, |line|);
    assert s[..|line|] == line && s[|line| + 1..] == rest;
  }

  lemma {:induction false} SplitPrintedLines(lines: seq<string>)
    requires Lines(lines)
    ensures SplitLines(Join(lines, "\n")) == lines
  {
    if |lines| == 1 {
      FirstBreakIs(lines[0], |lines[0]|);
    } else if |lines| > 1 {
      SplitOneLine(lines[0], Join(lines[1..], "\n"));
      SplitPrintedLines(lines[1..]);
    }
  }

  /** No line feed ends the text, and none follows another. */
  predicate SingleSpaced(s: string) {
    && s != "" && s[|s| - 1] != '\n'
    && forall i | 0 <= i < |s| - 1 :: s[i] == '\n' ==> s[i + 1] != '\n'
  }

  lemma {:induction false} JoinedIsSingleSpaced(lines: seq<string>)
    requires lines != [] && Lines(lines)
    ensures SingleSpaced(Join(lines, "\n")) && Join(lines, "\n")[0] == lines[0][0]
  {
    var first := lines[0];
    assert forall i | 0 <= i < |first| :: first[i] in first;
    if |lines| > 1 {
      JoinedIsSingleSpaced(lines[1..]);
      var rest := Join(lines[1..], "\n");
      var s := first + "\n" + rest;
      assert rest[0] == lines[1][0] && lines[1][0] in lines[1];
      forall i | 0 <= i < |s| - 1 && s[i] == '\n' ensures s[i + 1] != '\n' {
        if i > |first| {
          assert s[i] == rest[i - |first| - 1] && s[i + 1] == rest[i - |first|];
        }
      }
    }
  }

  lemma SingleSpacedBlock(block: string)
    requires SingleSpaced(block)
    ensures !Contains(block, BLANK_LINE) && EndsBlock(block, BLANK_LINE)
  {
    forall j ensures !OccursAt(block, j, BLANK_LINE) {
      OccursChar(block, j, BLANK_LINE, 0);
      OccursChar(block, j, BLANK_LINE, 1);
    }
    var s := block + BLANK_LINE;
    assert s[|block|..|block| + 2] == BLANK_LINE;
    forall j | 0 <= j < |block| ensures !OccursAt(s, j, BLANK_LINE) {
      OccursChar(s, j, BLANK_LINE, 0);
      OccursChar(s, j, BLANK_LINE, 1);
    }
    FoundFirst(s, BLANK_LINE, |block|);
  }

  lemma ParsePrintedRow(fields: seq<Field>)
    requires PrintableRow(fields)
    ensures ParseLines(SplitLines(PrintRow(fields))) == fields
    ensures SingleSpaced(PrintRow(fields)) && PrintRow(fields)[0] == fields[0].0[0]
  {
    var lines := PrintLines(fields);
    forall k | 0 <= k < |fields|
      ensures ParseLine(lines[k]) == fields[k] && lines[k] != "" && forall c | c in lines[k] :: !IsBreak(c)
    {
      ParsePrintedField(fields[k]);
    }
    SplitPrintedLines(lines);
    JoinedIsSingleSpaced(lines);
    ParsePrintedField(fields[0]);
  }

  lemma {:induction false} ParsePrintedRows(rows: seq<seq<Field>>)
    requires forall k | 0 <= k < |rows| :: PrintableRow(rows[k])
    ensures RowsOf(PrintRows(rows)) == Dicts(rows)
  {
    if rows != [] {
      ParsePrintedRow(rows[0]);
      assert PrintRows(rows)[1..] == PrintRows(rows[1..]);
      ParsePrintedRows(rows[1..]);
    }
  }

  lemma JoinStarts(blocks: seq<string>, d: string)
    requires blocks != [] && blocks[0] != ""
    ensures Join(blocks, d) != "" && Join(blocks, d)[0] == blocks[0][0]
  {
  }

  lemma {:induction false} JoinEnds(blocks: seq<string>, d: string)
    requires blocks != [] && blocks[|blocks| - 1] != ""
    ensures var s := Join(blocks, d);
      var last := blocks[|blocks| - 1];
      s != "" && s[|s| - 1] == last[|last| - 1]
  {
    if |blocks| > 1 {
      JoinEnds(blocks[1..], d);
    }
  }

  lemma LastCharacterIsClean(fields: seq<Field>)
    requires PrintableRow(fields)
    requires var value := fields[|fields| - 1].1; value != "" ==> !IsBlank(value[|value| - 1])
    ensures PrintRow(fields) != "" && !IsBlank(PrintRow(fields)[|PrintRow(fields)| - 1])
  {
    var lines := PrintLines(fields);
    var last := fields[|fields| - 1];
    ParsePrintedField(last);
    JoinEnds(lines, "\n");
    assert last.0[|last.0| - 1] in last.0;
  }

  lemma StripPrinted(rows: seq<seq<Field>>)
    requires rows != [] && forall k | 0 <= k < |rows| :: PrintableRow(rows[k])
    requires EndsClean(rows)
    ensures Strip(Print(rows)) == Join(PrintRows(rows), BLANK_LINE)
  {
    var blocks := PrintRows(rows);
    var text := Join(blocks, BLANK_LINE);
    var first, last := rows[0], rows[|rows| - 1];
    ParsePrintedRow(first);
    JoinStarts(blocks, BLANK_LINE);
    assert text[0] == first[0].0[0] && first[0].0[0] in first[0].0;
    LastCharacterIsClean(last);
    assert blocks[|rows| - 1] == PrintRow(last);
    JoinEnds(blocks, BLANK_LINE);
    StripTail(text, "\n\n");
  }

  lemma PrintedBlock(fields: seq<Field>)
    requires PrintableRow(fields)
    ensures !Contains(PrintRow(fields), BLANK_LINE) && EndsBlock(PrintRow(fields), BLANK_LINE)
  {
    ParsePrintedRow(fields);
    SingleSpacedBlock(PrintRow(fields));
  }

  lemma SplitPrinted(rows: seq<seq<Field>>)
    requires rows != [] && forall k | 0 <= k < |rows| :: PrintableRow(rows[k])
    ensures Split(Join(PrintRows(rows), BLANK_LINE), BLANK_LINE) == PrintRows(rows)
  {
    forall k | 0 <= k < |rows|
      ensures !Contains(PrintRow(rows[k]), BLANK_LINE) && EndsBlock(PrintRow(rows[k]), BLANK_LINE)
    {
      PrintedBlock(rows[k]);
    }
    SplitJoin(PrintRows(rows), BLANK_LINE);
  }

  /** Printing rows and parsing them gives the rows back, those with a worktree, in order. */
  lemma ParsePrinted(rows: seq<seq<Field>>)
    requires rows != [] && forall k | 0 <= k < |rows| :: PrintableRow(rows[k])
    requires EndsClean(rows)
    ensures Parse(Print(rows)) == Dicts(rows)
  {
    StripPrinted(rows);
    SplitPrinted(rows);
    ParsePrintedRows(rows);
  }
}
