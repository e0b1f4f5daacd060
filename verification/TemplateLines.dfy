/** The JSONL form of a template: one JSON object a line, blank and comment lines skipped
    (web/src/lib/persona-template.ts). */
module TemplateLines {
  import opened Wrappers
  import opened Text
  import opened Json
  import opened JsonRoundTrip

  // ----- lines -----

  /** Where the first line feed is, or the length of the text. */
  function FirstFeed(s: string): (n: nat)
    ensures n <= |s|
    ensures n < |s| ==> s[n] == '\n'
    ensures forall i | 0 <= i < n :: s[i] != '\n'
  {
    if s == [] || s[0] == '\n' then 0 else 1 + FirstFeed(s[1..])
  }

  /** A line without the carriage return that belongs to its break. */
  function Chop(s: string): string {
    if s != [] && s[|s| - 1] == '\r' then s[..|s| - 1] else s
  }

  /** Splitting at every line feed, with the carriage return before it if there is one. */
  function Lines(s: string): (lines: seq<string>)
    ensures lines != []
    decreases |s|
  {
    var n := FirstFeed(s);
    if n == |s| then [s] else [Chop(s[..n])] + Lines(s[n + 1..])
  }

  /** The break after a line, whose last character may be the carriage return of the break. */
  function BreakAfter(line: string): string {
    if Chop(line) == line then "\n" else "\r\n"
  }

  /** The breaks between the lines. */
  function Breaks(s: string): seq<string>
    decreases |s|
  {
    var n := FirstFeed(s);
    if n == |s| then []
    else [BreakAfter(s[..n])] + Breaks(s[n + 1..])
  }

  function Interleave(lines: seq<string>, breaks: seq<string>): string
    requires |lines| == |breaks| + 1
  {
    if breaks == [] then lines[0] else lines[0] + breaks[0] + Interleave(lines[1..], breaks[1..])
  }

  predicate IsBreak(s: string) { s == "\n" || s == "\r\n" }

  predicate NoFeed(s: string) { forall i | 0 <= i < |s| :: s[i] != '\n' }

  predicate EndsInReturn(s: string) { s != [] && s[|s| - 1] == '\r' }

  /** Lines and breaks interleaved are the text; no line holds a line feed, and no carriage return
      before a line feed is left on its line. */
  predicate Covers(lines: seq<string>, breaks: seq<string>, s: string) {
    && |lines| == |breaks| + 1
    && Interleave(lines, breaks) == s
    && (forall i | 0 <= i < |breaks| :: IsBreak(breaks[i]) && (breaks[i] == "\n" ==> !EndsInReturn(lines[i])))
    && (forall i | 0 <= i < |lines| :: NoFeed(lines[i]))
  }

  lemma CoversOneMore(line: string, lines: seq<string>, breaks: seq<string>, rest: string)
    requires NoFeed(line) && Covers(lines, breaks, rest)
    ensures Covers([Chop(line)] + lines, [BreakAfter(line)] + breaks, line + "\n" + rest)
  {
    BreakSplits(line, rest);
    var lines', breaks' := [Chop(line)] + lines, [BreakAfter(line)] + breaks;
    assert lines'[1..] == lines && breaks'[1..] == breaks;
    assert IsBreak(BreakAfter(line)) && NoFeed(Chop(line));
  }

  lemma {:induction false} LinesCover(s: string)
    ensures Covers(Lines(s), Breaks(s), s)
    decreases |s|
  {
    var n := FirstFeed(s);
    if n < |s| {
      LinesCover(s[n + 1..]);
      CoversOneMore(s[..n], Lines(s[n + 1..]), Breaks(s[n + 1..]), s[n + 1..]);
      FeedSplits(s, n);
    } else {
      assert Interleave([s], []) == s;
      assert NoFeed(s);
    }
  }

  lemma CoversTail(lines: seq<string>, breaks: seq<string>, s: string)
    requires Covers(lines, breaks, s) && breaks != []
    ensures Covers(lines[1..], breaks[1..], Interleave(lines[1..], breaks[1..]))
  {
  }

  lemma CoversHead(lines: seq<string>, breaks: seq<string>, s: string)
    requires Covers(lines, breaks, s) && breaks != []
    ensures var rest := Interleave(lines[1..], breaks[1..]);
            Lines(s) == [lines[0]] + Lines(rest) && Breaks(s) == [breaks[0]] + Breaks(rest)
  {
    var line := if breaks[0] == "\n" then lines[0] else lines[0] + "\r";
    var rest := Interleave(lines[1..], breaks[1..]);
    assert NoFeed(lines[0]);
    CutAtBreak(lines[0], breaks[0], rest);
    ChopsToLine(lines[0], breaks[0]);
    LinesOneMore(line, rest);
  }

  lemma OneLineOnly(s: string)
    requires NoFeed(s)
    ensures Lines(s) == [s] && Breaks(s) == []
  {
    assert FirstFeed(s) == |s|;
  }

  lemma UniqueOneMore(lines: seq<string>, breaks: seq<string>, s: string)
    requires Covers(lines, breaks, s) && breaks != []
    requires var rest := Interleave(lines[1..], breaks[1..]); lines[1..] == Lines(rest) && breaks[1..] == Breaks(rest)
    ensures lines == Lines(s) && breaks == Breaks(s)
  {
    CoversHead(lines, breaks, s);
    assert [lines[0]] + lines[1..] == lines && [breaks[0]] + breaks[1..] == breaks;
  }

  /** Only one way of cutting a text covers it, so the lines are determined by their description. */
  lemma {:induction false} LinesUnique(lines: seq<string>, breaks: seq<string>, s: string)
    requires Covers(lines, breaks, s)
    ensures lines == Lines(s) && breaks == Breaks(s)
    decreases |breaks|
  {
    if breaks == [] {
      assert NoFeed(lines[0]) && lines == [s];
      OneLineOnly(s);
    } else {
      CoversTail(lines, breaks, s);
      LinesUnique(lines[1..], breaks[1..], Interleave(lines[1..], breaks[1..]));
      UniqueOneMore(lines, breaks, s);
    }
  }

  lemma LinesOneMore(line: string, rest: string)
    requires NoFeed(line)
    ensures Lines(line + "\n" + rest) == [Chop(line)] + Lines(rest)
    ensures Breaks(line + "\n" + rest) == [BreakAfter(line)] + Breaks(rest)
  {
    var s := line + "\n" + rest;
    FirstFeedIs(line, rest);
    assert s[..|line|] == line && s[|line| + 1..] == rest;
  }

  lemma ChopsToLine(line: string, brk: string)
    requires IsBreak(brk) && (brk == "\n" ==> !EndsInReturn(line))
    ensures var full := if brk == "\n" then line else line + "\r"; Chop(full) == line && BreakAfter(full) == brk
  {
  }

  lemma CutAtBreak(line: string, brk: string, rest: string)
    requires IsBreak(brk)
    ensures line + brk + rest == (if brk == "\n" then line else line + "\r") + "\n" + rest
  {
  }

  lemma FirstFeedIs(line: string, rest: string)
    requires NoFeed(line)
    ensures FirstFeed(line + "\n" + rest) == |line|
  {
    var s := line + "\n" + rest;
    assert s[|line|] == '\n';
    assert forall i | 0 <= i < |line| :: s[i] == line[i];
  }

  lemma FeedSplits(s: string, n: nat)
    requires n < |s| && s[n] == '\n'
    ensures s[..n] + "\n" + s[n + 1..] == s
  {
  }

  lemma BreakSplits(line: string, rest: string)
    ensures line + "\n" + rest == Chop(line) + BreakAfter(line) + rest
  {
    if Chop(line) != line {
      assert line == Chop(line) + ['\r'];
      assert line + "\n" == Chop(line) + "\r\n";
    }
  }

  // ----- what a line is -----

  datatype Fault = NotJson | NotObject

  datatype LineError = LineError(line: nat, fault: Fault)

  datatype Verdict = Skipped | Block(value: Value) | Bad(fault: Fault)

  predicate Comment(line: string) { "//" <= line }

  function Judge(raw: string): Verdict {
    var line := Trim(raw, JsSpace);
    if line == [] || Comment(line) then Skipped
    else
      var parsed := Parse(line);
      if parsed.None? then Bad(NotJson)
      else if !parsed.value.Obj? then Bad(NotObject)
      else Block(parsed.value)
  }

  /** The verdict on each line. */
  function Verdicts(lines: seq<string>): seq<Verdict> {
    seq(|lines|, i requires 0 <= i < |lines| => Judge(lines[i]))
  }

  function Blocks(vs: seq<Verdict>): seq<Value> {
    if vs == [] then []
    else
      var last := vs[|vs| - 1];
      Blocks(vs[..|vs| - 1]) + if last.Block? then [last.value] else []
  }

  function Errors(vs: seq<Verdict>): seq<LineError> {
    if vs == [] then []
    else
      var last := vs[|vs| - 1];
      Errors(vs[..|vs| - 1]) + if last.Bad? then [LineError(|vs|, last.fault)] else []
  }

  function Judged(text: string): seq<Verdict> { Verdicts(Lines(text)) }

  /** The line parser: every line, in order, adds a block, adds an error or is skipped. */
  method ParseTemplate(text: string) returns (blocks: seq<Value>, errors: seq<LineError>)
    ensures blocks == Blocks(Judged(text)) && errors == Errors(Judged(text))
  {
    blocks, errors := [], [];
    var lines := Lines(text);
    ghost var vs := Verdicts(lines);
    var index := 0;
    while index < |lines|
      invariant index <= |lines|
      invariant blocks == Blocks(vs[..index]) && errors == Errors(vs[..index])
    {
      assert vs[..index + 1][..index] == vs[..index];
      var line := Trim(lines[index], JsSpace);
      index := index + 1;
      if line == [] || Comment(line) {
        continue;
      }
      var parsed := Parse(line);
      if parsed.None? {
        errors := errors + [LineError(index, NotJson)];
        continue;
      }
      if !parsed.value.Obj? {
        errors := errors + [LineError(index, NotObject)];
        continue;
      }
      blocks := blocks + [parsed.value];
    }
    assert vs[..index] == vs;
  }

  // ----- laws for every text -----

  /** The positions of the lines that are blocks. */
  function BlockLines(vs: seq<Verdict>): seq<nat> {
    if vs == [] then []
    else BlockLines(vs[..|vs| - 1]) + if vs[|vs| - 1].Block? then [|vs| - 1] else []
  }

  function SkippedCount(vs: seq<Verdict>): nat {
    if vs == [] then 0
    else SkippedCount(vs[..|vs| - 1]) + if vs[|vs| - 1].Skipped? then 1 else 0
  }

  ghost predicate Increasing(positions: seq<nat>) {
    forall i, j | 0 <= i < j < |positions| :: positions[i] < positions[j]
  }

  /** The errors are exactly the faulty lines, numbered from 1, in strictly increasing order. */
  lemma {:induction false} ErrorsExact(vs: seq<Verdict>)
    ensures forall i, j | 0 <= i < j < |Errors(vs)| :: Errors(vs)[i].line < Errors(vs)[j].line
    ensures forall i | 0 <= i < |Errors(vs)| ::
              var e := Errors(vs)[i]; 1 <= e.line <= |vs| && vs[e.line - 1] == Bad(e.fault)
    ensures forall k | 0 <= k < |vs| && vs[k].Bad? :: LineError(k + 1, vs[k].fault) in Errors(vs)
  {
    if vs != [] {
      var front := vs[..|vs| - 1];
      ErrorsExact(front);
      forall k | 0 <= k < |vs| && vs[k].Bad?
        ensures LineError(k + 1, vs[k].fault) in Errors(vs)
      {
        if k < |front| {
          assert vs[k] == front[k];
        } else {
          assert Errors(vs)[|Errors(vs)| - 1] == LineError(k + 1, vs[k].fault);
        }
      }
    }
  }

  /** The blocks are exactly the values of the block lines, in the order of the lines. */
  lemma {:induction false} BlocksExact(vs: seq<Verdict>)
    ensures |Blocks(vs)| == |BlockLines(vs)| && Increasing(BlockLines(vs))
    ensures forall i | 0 <= i < |Blocks(vs)| ::
              BlockLines(vs)[i] < |vs| && vs[BlockLines(vs)[i]] == Block(Blocks(vs)[i])
  {
    if vs != [] {
      BlocksExact(vs[..|vs| - 1]);
    }
  }

  /** No block line is missed. */
  lemma {:induction false} BlocksComplete(vs: seq<Verdict>, k: nat)
    requires k < |vs| && vs[k].Block?
    ensures k in BlockLines(vs) && vs[k].value in Blocks(vs)
  {
    if k < |vs| - 1 {
      BlocksComplete(vs[..|vs| - 1], k);
    } else {
      assert BlockLines(vs)[|BlockLines(vs)| - 1] == k;
      assert Blocks(vs)[|Blocks(vs)| - 1] == vs[k].value;
    }
  }

  /** Every line is counted exactly once. */
  lemma {:induction false} LinesPartition(vs: seq<Verdict>)
    ensures |Blocks(vs)| + |Errors(vs)| + SkippedCount(vs) == |vs|
  {
    if vs != [] {
      LinesPartition(vs[..|vs| - 1]);
    }
  }

  // ----- printing -----

  function Objects(blocks: seq<Value>): seq<Value> {
    if blocks == [] then []
    else if blocks[0].Obj? then [blocks[0]] + Objects(blocks[1..])
    else Objects(blocks[1..])
  }

  function Printed(blocks: seq<Value>): seq<string> {
    seq(|blocks|, i requires 0 <= i < |blocks| => Print(blocks[i]))
  }

  /** One object a line; what is not an object is left out. */
  function Stringify(blocks: seq<Value>): string { Join(Printed(Objects(blocks)), "\n") }

  ghost predicate AllProper(blocks: seq<Value>) { forall i | 0 <= i < |blocks| :: Proper(blocks[i]) }

  ghost predicate AllObjects(blocks: seq<Value>) { forall i | 0 <= i < |blocks| :: blocks[i].Obj? }

  lemma {:induction false} ObjectsKept(blocks: seq<Value>)
    ensures AllObjects(Objects(blocks))
    ensures AllProper(blocks) ==> AllProper(Objects(blocks))
    ensures AllObjects(blocks) ==> Objects(blocks) == blocks
  {
    if blocks != [] {
      ObjectsKept(blocks[1..]);
      assert AllProper(blocks) ==> AllProper(blocks[1..]);
      assert AllObjects(blocks) ==> AllObjects(blocks[1..]) && [blocks[0]] + blocks[1..] == blocks;
    }
  }

  lemma {:induction false} LinesOfJoin(parts: seq<string>)
    requires parts != [] && forall i | 0 <= i < |parts| :: OneLine(parts[i])
    ensures Lines(Join(parts, "\n")) == parts
  {
    if |parts| == 1 {
      assert FirstFeed(parts[0]) == |parts[0]|;
    } else {
      var rest := Join(parts[1..], "\n");
      LinesOneMore(parts[0], rest);
      LinesOfJoin(parts[1..]);
      assert Chop(parts[0]) == parts[0];
      assert [parts[0]] + parts[1..] == parts;
    }
  }

  /** A printed object is judged a block with that object as its value. */
  lemma JudgePrinted(v: Value)
    requires v.Obj? && Proper(v)
    ensures Judge(Print(v)) == Block(v)
  {
    var line := Print(v);
    assert line[0] == '{' && line[|line| - 1] == '}';
    TrimKeepsTrimmed(line, JsSpace);
    ParsePrint(v);
  }

  lemma {:induction false} AllBlocks(vs: seq<Verdict>, blocks: seq<Value>)
    requires |vs| == |blocks| && forall i | 0 <= i < |vs| :: vs[i] == Block(blocks[i])
    ensures Blocks(vs) == blocks && Errors(vs) == []
  {
    if vs != [] {
      var n := |vs| - 1;
      AllBlocks(vs[..n], blocks[..n]);
      assert blocks[..n] + [blocks[n]] == blocks;
    }
  }

  lemma BlocksPrinted(blocks: seq<Value>)
    requires AllObjects(blocks) && AllProper(blocks)
    ensures var vs := Verdicts(Printed(blocks)); Blocks(vs) == blocks && Errors(vs) == []
  {
    var vs := Verdicts(Printed(blocks));
    forall i | 0 <= i < |vs| ensures vs[i] == Block(blocks[i]) {
      JudgePrinted(blocks[i]);
    }
    AllBlocks(vs, blocks);
  }

  /** Parsing the printed form of any list gives its objects back, in order, without an error. */
  lemma StringifyParses(blocks: seq<Value>)
    requires AllProper(blocks)
    ensures var vs := Judged(Stringify(blocks)); Blocks(vs) == Objects(blocks) && Errors(vs) == []
  {
    ObjectsKept(blocks);
    var objects := Objects(blocks);
    if objects == [] {
      BlankText();
    } else {
      forall i | 0 <= i < |objects| ensures OneLine(Printed(objects)[i]) {
        PrintOneLine(objects[i]);
      }
      LinesOfJoin(Printed(objects));
      BlocksPrinted(objects);
    }
  }

  lemma BlankText()
    ensures Judged("") == [Skipped] && Blocks([Skipped]) == [] && Errors([Skipped]) == []
  {
    assert Lines("") == [""] && Judge("") == Skipped;
    var front := [Skipped][..0];
    assert front == [];
  }

  lemma {:induction false} ParsedBlocks(lines: seq<string>)
    ensures var blocks := Blocks(Verdicts(lines)); AllObjects(blocks) && AllProper(blocks)
  {
    if lines != [] {
      var front, last := lines[..|lines| - 1], lines[|lines| - 1];
      ParsedBlocks(front);
      assert Verdicts(lines)[..|lines| - 1] == Verdicts(front);
      ParsedProper(Trim(last, JsSpace));
      assert Judge(last).Block? ==> Judge(last).value.Obj? && Proper(Judge(last).value);
    }
  }

  /** Printing what was parsed and parsing again gives the same blocks, whatever the text was. */
  lemma Reparse(text: string)
    ensures var blocks := Blocks(Judged(text)); var again := Judged(Stringify(blocks));
            Blocks(again) == blocks && Errors(again) == []
  {
    var blocks := Blocks(Judged(text));
    ParsedBlocks(Lines(text));
    ObjectsKept(blocks);
    StringifyParses(blocks);
  }
}
