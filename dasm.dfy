/**
 * The disassembler of ram2dasm.py: a numbered S/Z/T/J listing back into the
 * tagged `inc`/`zero`/`mov`/`jmp` language. A first pass turns every
 * numbered line into its words and records every jump target; a second
 * puts a `label_N:` in front of line N once for each jump to it; a last
 * one writes the lines out in the order their numbers first appeared.
 */
module Disassembler {
  import opened Wrappers
  import opened Text

  /** A run of decimal digits, as `\d+` matches it. */
  type Numeral = s: seq<Byte> | |s| > 0 && AllDigits(s) witness "0"

  const SPACE: seq<Byte> := " "
  const SLASHES: seq<Byte> := "//"

  datatype Letter = S | Z | T | J

  /** The groups of a line the command pattern matches: number, letter, up to three arguments, comment. */
  datatype Instr = Instr(number: Numeral, letter: Letter, arg1: Numeral, arg2: Option<Numeral>,
                         arg3: Option<Numeral>, comment: Option<seq<Byte>>)

  /** How the two patterns classify a line: a command, the final `n *` line, or neither. */
  datatype LineKind = Numbered(instr: Instr) | FinalLine | Unmatched

  datatype ListingLine = ListingLine(text: seq<Byte>, kind: LineKind)

  /** SyntaxError for a line neither pattern accepts, KeyError for a jump to a line that is not there. */
  datatype DasmError = SyntaxError(line: seq<Byte>) | MissingMarker(marker: Numeral)

  /** The token list of one output line: labels, the instruction's words, the comment when there is one. */
  datatype Entry = Entry(labels: seq<seq<Byte>>, words: seq<seq<Byte>>, comment: Option<seq<Byte>>)

  /** The first pass's state: the ordered dictionary (keys in first-insertion order) and the jump targets. */
  datatype Pass = Pass(keys: seq<seq<Byte>>, entries: map<seq<Byte>, Entry>, markers: seq<Numeral>)

  /** `not line.strip()`: the line is whitespace only (see StripEmpty). */
  predicate Blank(line: ListingLine) {
    AllSpace(line.text)
  }

  /** A line the first pass takes without raising. */
  predicate Accepted(line: ListingLine) {
    Blank(line) || line.kind.FinalLine? ||
    (line.kind.Numbered? &&
     match line.kind.instr.letter
     case T => line.kind.instr.arg2.Some?
     case J => line.kind.instr.arg2.Some? && line.kind.instr.arg3.Some?
     case _ => true)
  }

  /** The label a jump to line `target` of an `n`-line listing uses. */
  function JumpLabel(target: Numeral, n: nat): seq<Byte> {
    if DigitsValue(target) == n then "end" else "label_" + target
  }

  /** The line that starts the block a jump to `target` lands on. */
  function LabelDef(target: Numeral): seq<Byte> {
    "label_" + target + ":"
  }

  /** Assignment to an ordered dictionary: a new key goes last, a present key keeps its place. */
  function Put(p: Pass, key: seq<Byte>, e: Entry): (q: Pass)
    ensures q.entries == p.entries[key := e] && q.markers == p.markers
  {
    Pass(if key in p.entries then p.keys else p.keys + [key], p.entries[key := e], p.markers)
  }

  /** The words of an accepted command line. */
  function Words(c: Instr, n: nat): seq<seq<Byte>>
    requires c.letter.T? ==> c.arg2.Some?
    requires c.letter.J? ==> c.arg2.Some? && c.arg3.Some?
  {
    match c.letter
    case S => ["inc", c.arg1]
    case Z => ["zero", c.arg1]
    case T => ["mov", c.arg1, c.arg2.value]
    case J =>
      var target := JumpLabel(c.arg3.value, n);
      if c.arg2.value != c.arg1 then ["jmp", c.arg1, c.arg2.value, target] else ["jmp", target]
  }

  /** One line of the first pass over an `n`-line listing. */
  function PassLine(p: Pass, line: ListingLine, n: nat): (r: Result<Pass, DasmError>)
    ensures r.Ok? <==> Accepted(line)
  {
    if Blank(line) then Ok(p)
    else
      match line.kind
      case Unmatched => Err(SyntaxError(line.text))
      case FinalLine => Ok(p)
      case Numbered(c) =>
        if (c.letter.T? || c.letter.J?) && c.arg2.None? then Err(SyntaxError(line.text))
        else if c.letter.J? && c.arg3.None? then Err(SyntaxError(line.text))
        else
          var q := Put(p, c.number, Entry([], Words(c, n), c.comment));
          if c.letter.J? then Ok(q.(markers := q.markers + [c.arg3.value])) else Ok(q)
  }

  /** The first pass over the first lines of an `n`-line listing. */
  function FirstPass(lines: seq<ListingLine>, n: nat): Result<Pass, DasmError>
    decreases |lines|
  {
    if lines == [] then Ok(Pass([], map[], []))
    else
      match FirstPass(lines[..|lines| - 1], n)
      case Err(e) => Err(e)
      case Ok(p) => PassLine(p, lines[|lines| - 1], n)
  }

  /** The second pass: one `label_N:` in front of line N for each jump to N other than to the end. */
  function Mark(entries: map<seq<Byte>, Entry>, markers: seq<Numeral>, n: nat): (r: Result<map<seq<Byte>, Entry>, DasmError>)
    ensures r.Ok? ==> r.value.Keys == entries.Keys
    decreases |markers|
  {
    if markers == [] then Ok(entries)
    else
      match Mark(entries, markers[..|markers| - 1], n)
      case Err(e) => Err(e)
      case Ok(prev) =>
        var m := markers[|markers| - 1];
        if DigitsValue(m) == n then Ok(prev)
        else if m !in prev then Err(MissingMarker(m))
        else Ok(prev[m := prev[m].(labels := [LabelDef(m)] + prev[m].labels)])
  }

  /** The tokens written for an entry: `//` and the comment, left-stripped, only when there is one. */
  function Tokens(e: Entry): seq<seq<Byte>> {
    e.labels + e.words + (if e.comment.Some? then [SLASHES, LStrip(e.comment.value)] else [])
  }

  function RenderLine(e: Entry): seq<Byte> {
    Join(SPACE, Tokens(e))
  }

  /** The output lines in key order. */
  function RenderedLines(keys: seq<seq<Byte>>, entries: map<seq<Byte>, Entry>): (r: seq<seq<Byte>>)
    requires forall k :: k in keys ==> k in entries
    ensures |r| == |keys|
  {
    seq(|keys|, i requires 0 <= i < |keys| => RenderLine(entries[keys[i]]))
  }

  /** ram2dasm.parse on the lines of a listing. */
  function Disassembly(lines: seq<ListingLine>): Result<seq<Byte>, DasmError> {
    match FirstPass(lines, |lines|)
    case Err(e) => Err(e)
    case Ok(p) =>
      FirstPassOrdered(lines, |lines|);
      match Mark(p.entries, p.markers, |lines|)
      case Err(e) => Err(e)
      case Ok(marked) => Ok(Strip(LinesText(RenderedLines(p.keys, marked))))
  }

  // ---------------------------------------------------------------------
  // Properties of the passes
  // ---------------------------------------------------------------------

  /** The keys are distinct and are exactly the dictionary's keys. */
  ghost predicate Ordered(p: Pass) {
    (forall i, j :: 0 <= i < j < |p.keys| ==> p.keys[i] != p.keys[j]) &&
    (forall k :: k in p.entries <==> k in p.keys)
  }

  /** The line is a command the first pass enters under its number. */
  predicate Enters(line: ListingLine) {
    !Blank(line) && line.kind.Numbered? && Accepted(line)
  }

  /** The jump targets of the lines, in order: the reference for the recorded markers. */
  function Targets(lines: seq<ListingLine>): seq<Numeral>
    decreases |lines|
  {
    if lines == [] then []
    else
      var line := lines[|lines| - 1];
      Targets(lines[..|lines| - 1]) +
        (if Enters(line) && line.kind.instr.letter.J? then [line.kind.instr.arg3.value] else [])
  }

  /**
   * The first pass fails exactly when some line is neither blank, nor the
   * final line, nor a command with the arguments its letter needs.
   */
  lemma {:induction false} FirstPassOk(lines: seq<ListingLine>, n: nat)
    ensures FirstPass(lines, n).Ok? <==> forall i :: 0 <= i < |lines| ==> Accepted(lines[i])
    decreases |lines|
  {
    if lines != [] {
      var pre := lines[..|lines| - 1];
      FirstPassOk(pre, n);
      assert forall i :: 0 <= i < |pre| ==> pre[i] == lines[i];
    }
  }

  /** After the first pass the keys are distinct and are the dictionary's keys, and no entry is labelled yet. */
  lemma {:induction false} FirstPassOrdered(lines: seq<ListingLine>, n: nat)
    requires FirstPass(lines, n).Ok?
    ensures Ordered(FirstPass(lines, n).value)
    ensures forall k :: k in FirstPass(lines, n).value.entries ==> FirstPass(lines, n).value.entries[k].labels == []
    decreases |lines|
  {
    if lines != [] {
      var pre := lines[..|lines| - 1];
      FirstPassOrdered(pre, n);
    }
  }

  /** The recorded markers are the jump targets in line order. */
  lemma {:induction false} FirstPassMarkers(lines: seq<ListingLine>, n: nat)
    requires FirstPass(lines, n).Ok?
    ensures FirstPass(lines, n).value.markers == Targets(lines)
    decreases |lines|
  {
    if lines != [] {
      var pre := lines[..|lines| - 1];
      FirstPassMarkers(pre, n);
    }
  }

  /** The dictionary's keys are the numbers of the command lines. */
  lemma {:induction false} FirstPassKeys(lines: seq<ListingLine>, n: nat)
    requires FirstPass(lines, n).Ok?
    ensures forall i :: 0 <= i < |lines| && Enters(lines[i]) ==> lines[i].kind.instr.number in FirstPass(lines, n).value.entries
    ensures forall k :: k in FirstPass(lines, n).value.entries ==>
      exists i :: 0 <= i < |lines| && Enters(lines[i]) && lines[i].kind.instr.number == k
    decreases |lines|
  {
    if lines != [] {
      var m := |lines|;
      var pre, line := lines[..m - 1], lines[m - 1];
      FirstPassKeys(pre, n);
      var p := FirstPass(pre, n).value;
      var q := FirstPass(lines, n).value;
      assert forall i :: 0 <= i < m - 1 ==> pre[i] == lines[i];
      forall k | k in q.entries
        ensures exists i :: 0 <= i < m && Enters(lines[i]) && lines[i].kind.instr.number == k
      {
        if k in p.entries {
          var i :| 0 <= i < m - 1 && Enters(pre[i]) && pre[i].kind.instr.number == k;
          assert lines[i] == pre[i];
        } else {
          assert Enters(lines[m - 1]);
        }
      }
    }
  }

  /** How many of the markers name the line `k`. */
  function Occurrences(markers: seq<Numeral>, k: seq<Byte>): nat
    decreases |markers|
  {
    if markers == [] then 0
    else Occurrences(markers[..|markers| - 1], k) + (if markers[|markers| - 1] == k then 1 else 0)
  }

  /** `k` copies of a line. */
  function Repeat(line: seq<Byte>, k: nat): (r: seq<seq<Byte>>)
    ensures |r| == k && forall i :: 0 <= i < k ==> r[i] == line
  {
    if k == 0 then [] else [line] + Repeat(line, k - 1)
  }

  /** The labels the second pass puts in front of line `k`, last marker first. */
  function Prepended(markers: seq<Numeral>, k: seq<Byte>, n: nat): seq<seq<Byte>>
    decreases |markers|
  {
    if markers == [] then []
    else
      var m := markers[|markers| - 1];
      (if m == k && DigitsValue(m) != n then [LabelDef(m)] else []) + Prepended(markers[..|markers| - 1], k, n)
  }

  /** The second pass fails exactly when a marker other than the end names a line that is not there. */
  lemma {:induction false} MarkOk(entries: map<seq<Byte>, Entry>, markers: seq<Numeral>, n: nat)
    ensures Mark(entries, markers, n).Ok? <==>
      forall i :: 0 <= i < |markers| && DigitsValue(markers[i]) != n ==> markers[i] in entries
    decreases |markers|
  {
    if markers != [] {
      var pre := markers[..|markers| - 1];
      MarkOk(entries, pre, n);
      assert forall i :: 0 <= i < |pre| ==> pre[i] == markers[i];
    }
  }

  /** The second pass changes only the labels, putting Prepended's in front of each line's own. */
  lemma {:induction false} MarkEntries(entries: map<seq<Byte>, Entry>, markers: seq<Numeral>, n: nat)
    requires Mark(entries, markers, n).Ok?
    ensures forall k :: k in entries ==>
      Mark(entries, markers, n).value[k] == entries[k].(labels := Prepended(markers, k, n) + entries[k].labels)
    decreases |markers|
  {
    if markers != [] {
      var pre := markers[..|markers| - 1];
      MarkEntries(entries, pre, n);
      forall k | k in entries
        ensures Mark(entries, markers, n).value[k] == entries[k].(labels := Prepended(markers, k, n) + entries[k].labels)
      {
        AppendAssoc(if markers[|markers| - 1] == k && DigitsValue(k) != n then [LabelDef(k)] else [],
          Prepended(pre, k, n), entries[k].labels);
      }
    }
  }

  /**
   * Line N other than the end gets one `label_N:` per jump to it; a jump to
   * the end labels nothing.
   */
  lemma {:induction false} PrependedCount(markers: seq<Numeral>, k: Numeral, n: nat)
    ensures Prepended(markers, k, n) == if DigitsValue(k) == n then [] else Repeat(LabelDef(k), Occurrences(markers, k))
    decreases |markers|
  {
    if markers != [] {
      PrependedCount(markers[..|markers| - 1], k, n);
    }
  }

  /**
   * Splitting the written lines at line breaks gives one line per key in
   * key order, then an empty remainder, when no comment holds a line break.
   */
  lemma RenderedSplit(keys: seq<seq<Byte>>, entries: map<seq<Byte>, Entry>)
    requires forall k :: k in keys ==> k in entries
    requires forall k :: k in keys ==> Free(RenderLine(entries[k]), LF)
    ensures Split(LinesText(RenderedLines(keys, entries)), [LF]) == RenderedLines(keys, entries) + [[]]
  {
    var lines := RenderedLines(keys, entries);
    SplitLines(lines, []);
    assert LinesText(lines) + [] == LinesText(lines);
  }

  // ---------------------------------------------------------------------
  // ram2dasm.parse
  // ---------------------------------------------------------------------

  /** ram2dasm.parse: the two passes over the lines, then the output loop. */
  method Parse(lines: seq<ListingLine>) returns (r: Result<seq<Byte>, DasmError>)
    ensures r == Disassembly(lines)
  {
    var n := |lines|;
    var first := RunFirstPass(lines);
    if first.Err? {
      return Err(first.error);
    }
    var p := first.value;
    FirstPassOrdered(lines, n);
    var marked := RunMark(p.entries, p.markers, n);
    if marked.Err? {
      return Err(marked.error);
    }
    var out := Render(p.keys, marked.value);
    return Ok(Strip(out));
  }

  /** parse's first loop: the dictionary of numbered lines and the list of jump targets. */
  method RunFirstPass(lines: seq<ListingLine>) returns (r: Result<Pass, DasmError>)
    ensures r == FirstPass(lines, |lines|)
  {
    var n := |lines|;
    var keys: seq<seq<Byte>>, firstPass: map<seq<Byte>, Entry>, jmpMarkers: seq<Numeral> := [], map[], [];
    for i := 0 to n
      invariant FirstPass(lines[..i], n) == Ok(Pass(keys, firstPass, jmpMarkers))
    {
      assert lines[..i + 1][..i] == lines[..i];
      var line := lines[i];
      StripEmpty(line.text);
      if Strip(line.text) != [] {
        match line.kind {
          case Unmatched =>
            FirstPassStops(lines, i + 1, n);
            return Err(SyntaxError(line.text));
          case FinalLine =>
          case Numbered(c) =>
            if (c.letter.T? || c.letter.J?) && c.arg2.None? {
              FirstPassStops(lines, i + 1, n);
              return Err(SyntaxError(line.text));
            }
            if c.letter.J? && c.arg3.None? {
              FirstPassStops(lines, i + 1, n);
              return Err(SyntaxError(line.text));
            }
            if c.number !in firstPass {
              keys := keys + [c.number];
            }
            firstPass := firstPass[c.number := Entry([], Words(c, n), c.comment)];
            if c.letter.J? {
              jmpMarkers := jmpMarkers + [c.arg3.value];
            }
        }
      }
    }
    assert lines[..n] == lines;
    return Ok(Pass(keys, firstPass, jmpMarkers));
  }

  /** parse's second loop: the labels in front of the lines jumped to. */
  method RunMark(entries: map<seq<Byte>, Entry>, markers: seq<Numeral>, n: nat) returns (r: Result<map<seq<Byte>, Entry>, DasmError>)
    ensures r == Mark(entries, markers, n)
  {
    var firstPass := entries;
    for j := 0 to |markers|
      invariant Mark(entries, markers[..j], n) == Ok(firstPass)
    {
      assert markers[..j + 1][..j] == markers[..j];
      var marker := markers[j];
      if DigitsValue(marker) != n {
        if marker !in firstPass {
          MarkStops(entries, markers, j + 1, n);
          return Err(MissingMarker(marker));
        }
        firstPass := firstPass[marker := firstPass[marker].(labels := [LabelDef(marker)] + firstPass[marker].labels)];
      }
    }
    assert markers[..|markers|] == markers;
    return Ok(firstPass);
  }

  /** parse's output loop: each entry's tokens joined by spaces, one line each, in key order. */
  method Render(keys: seq<seq<Byte>>, entries: map<seq<Byte>, Entry>) returns (out: seq<Byte>)
    requires forall k :: k in keys ==> k in entries
    ensures out == LinesText(RenderedLines(keys, entries))
  {
    out := [];
    for i := 0 to |keys|
      invariant out == LinesText(RenderedLines(keys[..i], entries))
    {
      assert RenderedLines(keys[..i + 1], entries)[..i] == RenderedLines(keys[..i], entries);
      out := out + RenderLine(entries[keys[i]]) + [LF];
    }
    assert keys[..|keys|] == keys;
  }

  /** The first line the first pass refuses is the one reported. */
  lemma {:induction false} FirstPassStops(lines: seq<ListingLine>, k: nat, n: nat)
    requires k <= |lines| && FirstPass(lines[..k], n).Err?
    ensures FirstPass(lines, n) == FirstPass(lines[..k], n)
    decreases |lines| - k
  {
    if k < |lines| {
      var m := |lines|;
      assert lines[..m - 1][..k] == lines[..k];
      FirstPassStops(lines[..m - 1], k, n);
    } else {
      assert lines[..k] == lines;
    }
  }

  /** The first missing marker is the one reported. */
  lemma {:induction false} MarkStops(entries: map<seq<Byte>, Entry>, markers: seq<Numeral>, k: nat, n: nat)
    requires k <= |markers| && Mark(entries, markers[..k], n).Err?
    ensures Mark(entries, markers, n) == Mark(entries, markers[..k], n)
    decreases |markers| - k
  {
    if k < |markers| {
      var m := |markers|;
      assert markers[..m - 1][..k] == markers[..k];
      MarkStops(entries, markers[..m - 1], k, n);
    } else {
      assert markers[..k] == markers;
    }
  }
}
