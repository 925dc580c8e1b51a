/**
 * The Turing machine itself (class `TuringMachine` of altturing.py): the
 * compiler from the `DEFINE Q..;TAPE:..;POS:..` language and the tape
 * interpreter with its statistics.
 */
module TuringMachines {
  import opened Wrappers
  import opened Text
  import opened TuringTable
  import opened TuringTape
  import opened TuringFileFormat

  // ---------------------------------------------------------------------
  // Compiling source lines
  // ---------------------------------------------------------------------

  /**
   * What a source line is, as the line templates classify the stripped line:
   * the header (`DEFINE Q<q>;TAPE:<tape>;POS:<pos>`, with `pos` None when
   * its text is not a number, such as an empty text or a lone `-`), a
   * transition `<sym> q<state>: <newSym><move>q<next>`, a COMMENT or
   * SOLUTION line with its text, or none of these.
   */
  datatype LineKind =
    | HeaderLine(q: nat, tape: seq<Byte>, pos: Option<int>)
    | CommandLine(sym: Byte, state: nat, newSym: Byte, move: Byte, next: nat)
    | CommentLine(comment: seq<Byte>)
    | SolutionLine(solution: seq<Byte>)
    | OtherLine

  /** A source line as read, and how its stripped text is classified. */
  datatype SourceLine = SourceLine(text: seq<Byte>, kind: LineKind)

  /**
   * Why compile fails: the first line is not a header, the header's POS is
   * not a number (ValueError), a negative POS on an empty tape (division by
   * zero), a transition set_action rejects, or a line that continues
   * nothing. An empty program is refused too: the source then builds a
   * machine without table or tape, whose first use fails.
   */
  datatype CompileError =
    | EmptyProgram
    | HeaderMissing
    | PositionNotANumber
    | EmptyTapeNegativePosition
    | InvalidCommand(line: seq<Byte>)
    | UnrecognizedLine(line: seq<Byte>)

  /** The compiler's state: the program so far and which text a plain line continues. */
  datatype Compiled = Compiled(grid: Grid, tape: TapeValue, comment: seq<Byte>, solution: seq<Byte>,
                               inSolution: bool, inComment: bool)

  /** The distinct elements of `s` in order of first occurrence. */
  function Dedup(s: seq<Byte>): (r: seq<Byte>)
    ensures Distinct(r) && forall x :: x in r <==> x in s
    decreases |s|
  {
    if s == [] then []
    else
      var rest := Dedup(s[..|s| - 1]);
      var x := s[|s| - 1];
      if x in rest then rest else rest + [x]
  }

  /** A row of `q` empty slots for every symbol. */
  function EmptyRows(symbols: seq<Byte>, q: nat): (rows: map<Byte, seq<Slot>>)
    ensures forall k :: k in rows <==> k in symbols
  {
    map k | k in symbols :: Empties(q)
  }

  /** The position the head starts on: a negative POS counts from the end of the tape, modulo its length. */
  function StartPosition(tape: seq<Byte>, pos: int): int
    requires pos >= 0 || |tape| > 0
  {
    if pos < 0 then (|tape| + pos) % |tape| else pos
  }

  /**
   * The program a header line starts: a row of `q` empty slots for every
   * tape symbol and for the blank (the space row becomes the `_` row), and
   * the tape from 0 to its length minus one.
   */
  function CompileHeader(q: nat, tape: seq<Byte>, pos: Option<int>): (r: Result<Compiled, CompileError>)
    ensures r.Ok? ==> Full(r.value.grid) && r.value.grid.qCount == q
  {
    match pos
    case None => Err(PositionNotANumber)
    case Some(p) =>
      if p < 0 && |tape| == 0 then Err(EmptyTapeNegativePosition)
      else
        var symbols := Dedup(tape + [SPACE]);
        var g := Normalize(q, symbols, EmptyRows(symbols, q));
        assert Full(g);
        Ok(Compiled(g, TapeValue(0, |tape| - 1, StartPosition(tape, p), tape), [], [], false, false))
  }

  /** One line after the header. */
  function CompileLine(c: Compiled, line: SourceLine): (r: Result<Compiled, CompileError>)
    requires Full(c.grid)
    ensures r.Ok? ==> Full(r.value.grid) && r.value.grid.qCount == c.grid.qCount
    ensures r.Ok? ==> r.value.tape == c.tape
  {
    match line.kind
    case CommandLine(sym, state, newSym, move, next) =>
      if 0 < state <= c.grid.qCount && sym in c.grid.rows && newSym in c.grid.rows && IsMoveChar(move) then
        Ok(c.(grid := SetSlot(c.grid, sym, state, Cmd(newSym, MoveOf(move).value, next)),
              inSolution := false, inComment := false))
      else Err(InvalidCommand(Strip(line.text)))
    case _ => CompileText(c, line)
  }

  /** A comment line, a solution line or plain text after the header. */
  function CompileText(c: Compiled, line: SourceLine): (r: Result<Compiled, CompileError>)
    requires !line.kind.CommandLine?
    ensures r.Ok? ==> r.value.grid == c.grid && r.value.tape == c.tape
  {
    match line.kind
    case CommentLine(text) =>
      if c.comment == [] then Ok(c.(comment := text, inComment := true, inSolution := false)) else Ok(c)
    case SolutionLine(text) =>
      if c.solution == [] then Ok(c.(solution := text, inSolution := true, inComment := false)) else Ok(c)
    case _ =>
      if c.inSolution then Ok(c.(solution := c.solution + [LF] + Strip(line.text)))
      else if c.inComment then Ok(c.(comment := c.comment + [LF] + Strip(line.text)))
      else Err(UnrecognizedLine(Strip(line.text)))
  }

  /** TuringMachine.compile over the lines read so far: the header, then one line at a time. */
  function CompileLines(lines: seq<SourceLine>): (r: Result<Compiled, CompileError>)
    ensures r.Ok? ==> Full(r.value.grid)
    decreases |lines|
  {
    if |lines| == 0 then Err(EmptyProgram)
    else if |lines| == 1 then
      match lines[0].kind
      case HeaderLine(q, tape, pos) => CompileHeader(q, tape, pos)
      case _ => Err(HeaderMissing)
    else
      match CompileLines(lines[..|lines| - 1])
      case Err(e) => Err(e)
      case Ok(c) => CompileLine(c, lines[|lines| - 1])
  }

  /** Every compiled table has the shape of a Table: keyed rows, a `_` row and no space row. */
  lemma {:induction false} CompiledNormal(lines: seq<SourceLine>)
    requires CompileLines(lines).Ok?
    ensures Normal(CompileLines(lines).value.grid)
    decreases |lines|
  {
    if |lines| > 1 {
      var c := CompileLines(lines[..|lines| - 1]).value;
      CompiledNormal(lines[..|lines| - 1]);
      var line := lines[|lines| - 1];
      if line.kind.CommandLine? {
        var k := line.kind;
        assert CompileLines(lines).value.grid == SetSlot(c.grid, k.sym, k.state, Cmd(k.newSym, MoveOf(k.move).value, k.next));
      }
    }
  }

  /** The first line must be a header: otherwise compile fails whatever follows. */
  lemma {:induction false} HeaderRequired(lines: seq<SourceLine>)
    requires |lines| > 0 && !lines[0].kind.HeaderLine?
    ensures CompileLines(lines) == Err(HeaderMissing)
    decreases |lines|
  {
    if |lines| > 1 {
      HeaderRequired(lines[..|lines| - 1]);
    }
  }

  /** Once a line fails, compile fails with that line's error whatever follows. */
  lemma {:induction false} CompileStopsAtError(lines: seq<SourceLine>, n: nat)
    requires 0 < n <= |lines| && CompileLines(lines[..n]).Err?
    ensures CompileLines(lines) == CompileLines(lines[..n])
    decreases |lines| - n
  {
    if n < |lines| {
      assert lines[..n + 1][..n] == lines[..n];
      CompileStopsAtError(lines, n + 1);
    } else {
      assert lines[..n] == lines;
    }
  }

  /**
   * The header's program: the alphabet is the tape's symbols and the blank,
   * every row holds `q` empty slots, the tape runs from 0 to its length
   * minus one, a non-negative POS is kept and a negative POS `p` becomes
   * `(len + p) mod len`, a position on the tape.
   */
  lemma HeaderProgram(q: nat, tape: seq<Byte>, p: int)
    requires p >= 0 || |tape| > 0
    ensures CompileHeader(q, tape, Some(p)).Ok?
    ensures var c := CompileHeader(q, tape, Some(p)).value;
      (forall k :: k in c.grid.rows <==> k == BLANK || (k in tape && k != SPACE)) &&
      (forall k :: k in c.grid.rows ==> c.grid.rows[k] == Empties(q)) &&
      c.tape.begin == 0 && c.tape.end == |tape| - 1 && c.tape.content == tape && c.tape.Consistent() &&
      c.comment == [] && c.solution == []
  {
    var symbols := Dedup(tape + [SPACE]);
    var rows := EmptyRows(symbols, q);
    var g := Normalize(q, symbols, rows);
    assert SPACE in rows;
    forall k
      ensures k in g.rows <==> k == BLANK || (k in tape && k != SPACE)
    {
      if k != BLANK && k != SPACE {
        assert k in tape + [SPACE] <==> k in tape;
      }
    }
  }

  /**
   * A non-negative POS is the start position as it is; a negative one
   * lands on the tape, counting back from its end when it is no longer
   * than the tape (POS -1 is the last cell).
   */
  lemma StartOnTape(tape: seq<Byte>, p: int)
    requires p >= 0 || |tape| > 0
    ensures p >= 0 ==> StartPosition(tape, p) == p
    ensures p < 0 ==> 0 <= StartPosition(tape, p) < |tape|
    ensures 0 <= |tape| + p && p < 0 ==> StartPosition(tape, p) == |tape| + p
  {
    if 0 <= |tape| + p && p < 0 {
      var x := |tape| + p;
      assert x == |tape| * (x / |tape|) + x % |tape|;
      assert x / |tape| == 0;
    }
  }

  /**
   * A transition line writes exactly its slot: afterwards the lookup of its
   * symbol and state finds the new command, and every other lookup finds
   * what it found before; so a repeated transition overwrites the earlier one.
   */
  lemma CommandWrites(c: Compiled, line: SourceLine, s: Byte, q: nat)
    requires Full(c.grid) && line.kind.CommandLine?
    requires CompileLine(c, line).Ok?
    ensures var k := line.kind;
      Action(CompileLine(c, line).value.grid, s, q) ==
        if KeyOf(s) == k.sym && q == k.state then Found(Cmd(k.newSym, MoveOf(k.move).value, k.next))
        else Action(c.grid, s, q)
  {
    var k := line.kind;
    ActionAfterSet(c.grid, k.sym, k.state, Cmd(k.newSym, MoveOf(k.move).value, k.next), s, q);
  }

  /** A transition line is accepted exactly when set_action accepts it: state in range, both symbols known, a move character. */
  lemma CommandAccepted(c: Compiled, line: SourceLine)
    requires Full(c.grid) && line.kind.CommandLine?
    ensures var k := line.kind;
      CompileLine(c, line).Ok? <==>
        0 < k.state <= c.grid.qCount && k.sym in c.grid.rows && k.newSym in c.grid.rows && IsMoveChar(k.move)
  {
  }

  /**
   * COMMENT and SOLUTION set their text only while it is still empty; a
   * later one is ignored. A plain line continues the text last set, after a
   * line break, until a transition line ends the continuation.
   */
  lemma TextLines(c: Compiled, line: SourceLine)
    requires Full(c.grid)
    ensures line.kind.CommentLine? && c.comment != [] ==> CompileLine(c, line) == Ok(c)
    ensures line.kind.SolutionLine? && c.solution != [] ==> CompileLine(c, line) == Ok(c)
    ensures line.kind.OtherLine? && c.inSolution ==>
      CompileLine(c, line) == Ok(c.(solution := c.solution + [LF] + Strip(line.text)))
    ensures line.kind.OtherLine? && !c.inSolution && !c.inComment ==> CompileLine(c, line).Err?
    ensures line.kind.CommandLine? && CompileLine(c, line).Ok? ==>
      !CompileLine(c, line).value.inSolution && !CompileLine(c, line).value.inComment
  {
  }

  /** Compiling one more line continues from the program so far. */
  lemma CompileNext(lines: seq<SourceLine>, i: nat)
    requires 1 <= i < |lines| && CompileLines(lines[..i]).Ok?
    ensures CompileLines(lines[..i + 1]) == CompileLine(CompileLines(lines[..i]).value, lines[i])
  {
    assert lines[..i + 1][..i] == lines[..i];
  }

  /**
   * The body of the compile loop for a line after the header: a transition
   * goes into the table through set_action, COMMENT, SOLUTION and plain
   * lines update the texts and the continuation flags.
   */
  method CompileLineInto(t: Table, ghost tape: TapeValue, line: SourceLine, comment: seq<Byte>, solution: seq<Byte>,
                         inSolution: bool, inComment: bool)
    returns (err: Option<CompileError>, comment': seq<Byte>, solution': seq<Byte>, inSolution': bool, inComment': bool)
    requires t.Valid() && Full(t.Value())
    modifies t
    ensures t.Valid()
    ensures CompileLine(Compiled(old(t.Value()), tape, comment, solution, inSolution, inComment), line) ==
      if err.None? then Ok(Compiled(t.Value(), tape, comment', solution', inSolution', inComment')) else Err(err.value)
  {
    err, comment', solution', inSolution', inComment' := None, comment, solution, inSolution, inComment;
    match line.kind {
      case CommandLine(sym, state, newSym, move, next) =>
        inSolution', inComment' := false, false;
        var ok := t.SetAction(sym, state, newSym, move, next);
        if !ok {
          err := Some(InvalidCommand(Strip(line.text)));
        }
      case _ =>
        err, comment', solution', inSolution', inComment' := TextInto(t.Value(), tape, line, comment, solution, inSolution, inComment);
    }
  }

  /** The text lines of compile: they change only the comment, the solution and the two flags. */
  method TextInto(ghost g: Grid, ghost tape: TapeValue, line: SourceLine, comment: seq<Byte>, solution: seq<Byte>,
                  inSolution: bool, inComment: bool)
    returns (err: Option<CompileError>, comment': seq<Byte>, solution': seq<Byte>, inSolution': bool, inComment': bool)
    requires !line.kind.CommandLine?
    ensures CompileText(Compiled(g, tape, comment, solution, inSolution, inComment), line) ==
      if err.None? then Ok(Compiled(g, tape, comment', solution', inSolution', inComment')) else Err(err.value)
  {
    err, comment', solution', inSolution', inComment' := None, comment, solution, inSolution, inComment;
    match line.kind {
      case CommentLine(c) =>
        if comment == [] {
          comment', inComment', inSolution' := c, true, false;
        }
      case SolutionLine(s) =>
        if solution == [] {
          solution', inSolution', inComment' := s, true, false;
        }
      case _ =>
        if inSolution {
          solution' := solution + [LF] + Strip(line.text);
        } else if inComment {
          comment' := comment + [LF] + Strip(line.text);
        } else {
          err := Some(UnrecognizedLine(Strip(line.text)));
        }
    }
  }

  // ---------------------------------------------------------------------
  // Running the machine
  // ---------------------------------------------------------------------

  /** `n` blank cells, written as spaces. */
  function Spaces(n: nat): (r: seq<Byte>)
    ensures |r| == n && forall i :: 0 <= i < n ==> r[i] == SPACE
  {
    seq(n, i => SPACE)
  }

  /**
   * The tape before a read: extended with spaces so that the head is on a
   * stored cell; stored cells keep their contents.
   */
  function Grow(t: TapeValue): (r: TapeValue)
    requires t.Consistent()
    ensures r.Consistent() && r.Covers() && r.pointer == t.pointer
    ensures r.begin == (if t.pointer < t.begin then t.pointer else t.begin)
    ensures r.end == (if t.pointer > t.end then t.pointer else t.end)
  {
    if t.pointer > t.end then t.(content := t.content + Spaces(t.pointer - t.end), end := t.pointer)
    else if t.pointer < t.begin then t.(content := Spaces(t.begin - t.pointer) + t.content, begin := t.pointer)
    else t
  }

  /** Growing keeps every stored cell where it was and fills the new cells with spaces. */
  lemma GrowKeepsCells(t: TapeValue)
    requires t.Consistent()
    ensures var r := Grow(t);
      (forall i :: 0 <= i < |t.content| ==> r.content[i + (t.begin - r.begin)] == t.content[i]) &&
      (forall i :: 0 <= i < |r.content| && !(0 <= i - (t.begin - r.begin) < |t.content|) ==> r.content[i] == SPACE)
  {
  }

  /**
   * The interpreter's state: the current state, the tape, the steps done,
   * the positions the head has visited, and how often each command ran and
   * each state was entered.
   */
  datatype Config = Config(state: nat, tape: TapeValue, iterations: nat, used: set<int>,
                           cmdCount: map<Slot, nat>, stateCount: map<nat, nat>)

  /** The start: state 1, no steps, the head's cell visited, state 1 entered once. */
  function Start(t: TapeValue): Config {
    Config(1, t, 0, {t.pointer}, map[], map[1 := 1])
  }

  /** The tape after command `s` with the head on a stored cell: its symbol written there (`_` as a space), the head moved. */
  function Written(t: TapeValue, s: Slot): (r: TapeValue)
    requires s.Cmd? && t.Consistent() && t.Covers()
    ensures r.Consistent()
  {
    t.(content := t.content[t.pointer - t.begin := if s.sym == BLANK then SPACE else s.sym],
       pointer := t.pointer + Shift(s.move))
  }

  /** One step with command `s` on a tape whose head is on a stored cell. */
  function Apply(c: Config, s: Slot): (r: Config)
    requires s.Cmd? && c.tape.Consistent() && c.tape.Covers()
    ensures r.tape.Consistent()
  {
    var t := Written(c.tape, s);
    Config(s.next, t, c.iterations + 1, c.used + {t.pointer}, Bump(c.cmdCount, s), Bump(c.stateCount, s.next))
  }

  /** Why a run stops without halting: TuringRuntimeError for the first three, IndexError for the last. */
  datatype Fault = LimitReached | NoAction | EmptyAction | RowTooShort

  /** How a run ends, with the configuration at that point (the tape as it was left). */
  datatype Outcome = Halted(c: Config) | Failed(fault: Fault, c: Config)

  /** What one pass of the interpreter loop leads to: the next configuration, or the end of the run. */
  datatype Pass = Next(c: Config) | Stop(o: Outcome)

  /**
   * One pass of the loop of TuringMachine.execute in a state other than 0:
   * grow the tape to the head, stop once more than `max` steps are done,
   * look the action up and apply it.
   */
  function PassOf(g: Grid, max: nat, c: Config): (p: Pass)
    requires c.tape.Consistent()
    ensures p.Next? ==> c.iterations <= max && p.c.iterations == c.iterations + 1 && p.c.tape.Consistent()
    ensures p.Next? ==> p.c.used == c.used + {p.c.tape.pointer}
    ensures p.Stop? ==>
      p.o.Failed? && p.o.c.tape.Consistent() && p.o.c.iterations == c.iterations &&
      p.o.c.used == c.used && p.o.c.tape.pointer == c.tape.pointer
    ensures p.Stop? && p.o.fault == LimitReached <==> c.iterations > max
  {
    var c1 := c.(tape := Grow(c.tape));
    if c.iterations > max then Stop(Failed(LimitReached, c1))
    else
      match Action(g, c1.tape.content[c1.tape.pointer - c1.tape.begin], c.state)
      case Undefined => Stop(Failed(NoAction, c1))
      case OutOfRow => Stop(Failed(RowTooShort, c1))
      case Found(s) => if s.Empty? then Stop(Failed(EmptyAction, c1)) else Next(Apply(c1, s))
  }

  /** TuringMachine.execute from configuration `c`: passes of the loop until the state is 0 or a pass stops the run. */
  function Run(g: Grid, max: nat, c: Config): (o: Outcome)
    requires c.tape.Consistent()
    decreases if c.iterations <= max then max + 1 - c.iterations else 0
  {
    if c.state == 0 then Halted(c)
    else
      match PassOf(g, max, c)
      case Stop(o) => o
      case Next(c2) => Run(g, max, c2)
  }

  /**
   * A run never does more than `max + 1` steps, keeps the tape consistent,
   * only adds steps and visited cells, and a halted run is in state 0.
   */
  lemma {:induction false} RunBounds(g: Grid, max: nat, c: Config)
    requires c.tape.Consistent() && c.iterations <= max + 1
    ensures var o := Run(g, max, c);
      o.c.tape.Consistent() && c.iterations <= o.c.iterations <= max + 1 && c.used <= o.c.used &&
      (o.Halted? ==> o.c.state == 0) &&
      (o.Failed? && o.fault == LimitReached ==> o.c.iterations == max + 1)
    decreases max + 1 - c.iterations
  {
    if c.state != 0 {
      match PassOf(g, max, c)
      case Stop(_) =>
      case Next(c2) => RunBounds(g, max, c2);
    }
  }

  /**
   * The head's position is always among the visited cells, and no more
   * cells are visited than steps done plus one.
   */
  lemma {:induction false} RunUsedCells(g: Grid, max: nat, c: Config)
    requires c.tape.Consistent() && c.tape.pointer in c.used && |c.used| <= c.iterations + 1
    ensures var o := Run(g, max, c);
      o.c.tape.pointer in o.c.used && |o.c.used| <= o.c.iterations + 1
    decreases if c.iterations <= max then max + 1 - c.iterations else 0
  {
    if c.state != 0 {
      match PassOf(g, max, c)
      case Stop(_) =>
      case Next(c2) =>
        assert |c2.used| <= |c.used| + 1;
        RunUsedCells(g, max, c2);
    }
  }

  /**
   * A step rewrites exactly the cell under the head (a `_` is written as a
   * space), keeps the bounds, moves the head by -1, 0 or +1 and enters the
   * command's next state.
   */
  lemma StepWritesOneCell(c: Config, s: Slot)
    requires s.Cmd? && c.tape.Consistent() && c.tape.Covers()
    ensures var r := Apply(c, s); var local := c.tape.pointer - c.tape.begin;
      |r.tape.content| == |c.tape.content| && r.tape.begin == c.tape.begin && r.tape.end == c.tape.end &&
      r.tape.content[local] == (if s.sym == BLANK then SPACE else s.sym) &&
      (forall i :: 0 <= i < |c.tape.content| && i != local ==> r.tape.content[i] == c.tape.content[i]) &&
      r.tape.pointer - c.tape.pointer == Shift(s.move) && -1 <= Shift(s.move) <= 1 &&
      r.state == s.next && r.iterations == c.iterations + 1
  {
  }

  /** The start of each pass of execute: pads the tape with spaces up to the head. */
  method GrowTape(t: Tape)
    requires t.Value().Consistent()
    modifies t
    ensures t.Value() == Grow(old(t.Value()))
  {
    if t.pointer > t.end {
      t.content := t.content + Spaces(t.pointer - t.end);
      t.end := t.pointer;
    } else if t.pointer < t.begin {
      t.content := Spaces(t.begin - t.pointer) + t.content;
      t.begin := t.pointer;
    }
  }

  /**
   * One pass of the loop of TuringMachine.execute, on the tape in place and
   * the interpreter's variables: a fault ends the run, otherwise the
   * variables of the next pass are returned.
   */
  method PassOn(t: Tape, g: Grid, max: nat, state: nat, iterations: nat, used: set<int>,
                cmdCount: map<Slot, nat>, stateCount: map<nat, nat>)
    returns (fault: Option<Fault>, state': nat, iterations': nat, used': set<int>,
             cmdCount': map<Slot, nat>, stateCount': map<nat, nat>)
    requires state != 0 && t.Value().Consistent()
    modifies t
    ensures var p := PassOf(g, max, Config(state, old(t.Value()), iterations, used, cmdCount, stateCount));
      (fault.Some? <==> p.Stop?) &&
      (p.Stop? ==> fault.value == p.o.fault && t.Value() == p.o.c.tape) &&
      (p.Next? ==> p.c == Config(state', t.Value(), iterations', used', cmdCount', stateCount'))
  {
    ghost var c := Config(state, t.Value(), iterations, used, cmdCount, stateCount);
    state', iterations', used', cmdCount', stateCount' := state, iterations, used, cmdCount, stateCount;
    GrowTape(t);
    if iterations > max {
      return Some(LimitReached), state', iterations', used', cmdCount', stateCount';
    }
    var action := Action(g, t.content[t.pointer - t.begin], state);
    if action.Undefined? {
      return Some(NoAction), state', iterations', used', cmdCount', stateCount';
    }
    if action.OutOfRow? {
      return Some(RowTooShort), state', iterations', used', cmdCount', stateCount';
    }
    var s := action.slot;
    cmdCount' := Bump(cmdCount, s);
    if s.Empty? {
      return Some(EmptyAction), state', iterations', used', cmdCount', stateCount';
    }
    WriteAndMove(t, s);
    used' := used + {t.pointer};
    state' := s.next;
    stateCount' := Bump(stateCount, state');
    iterations' := iterations + 1;
    fault := None;
  }

  /** The end of each pass of execute: writes the command's symbol under the head and moves the head. */
  method WriteAndMove(t: Tape, s: Slot)
    requires s.Cmd? && t.Value().Consistent() && t.Value().Covers()
    modifies t
    ensures t.Value() == Written(old(t.Value()), s)
  {
    var local := t.pointer - t.begin;
    t.content := t.content[local := if s.sym == BLANK then SPACE else s.sym];
    t.pointer := t.pointer + Shift(s.move);
  }

  /** What execute returns when the machine halts: the step count, the number of visited cells and the counters. */
  datatype Trace = Trace(iterations: nat, usedCells: nat, commandCount: map<Slot, nat>, stateCount: map<nat, nat>)

  function TraceOf(o: Outcome): Result<Trace, Fault> {
    match o
    case Halted(c) => Ok(Trace(c.iterations, |c.used|, c.cmdCount, c.stateCount))
    case Failed(f, _) => Err(f)
  }

  /** A compiled machine: its table, its tape, its comment and its solution. */
  class TuringMachine {
    const table: Table
    const tape: Tape
    const comment: seq<Byte>
    const solution: seq<Byte>

    /** TuringMachine(TuringFile): a machine over a file's table and tape. */
    constructor (table: Table, tape: Tape, comment: seq<Byte>, solution: seq<Byte>)
      ensures this.table == table && this.tape == tape
      ensures this.comment == comment && this.solution == solution
    {
      this.table := table;
      this.tape := tape;
      this.comment := comment;
      this.solution := solution;
    }

    function Value(): FileValue
      reads table, tape
    {
      FileValue(table.Value(), tape.Value(), comment, solution)
    }

    /** TuringMachine.link: the file of this machine, sharing its table and tape. */
    method Link() returns (f: TuringFile)
      ensures fresh(f) && f.table == table && f.tape == tape && f.comment == comment && f.solution == solution
    {
      f := new TuringFile(table, tape, comment, solution);
    }

    /**
     * TuringMachine(lines): compiles the header, then each line in turn,
     * writing transitions into the table as it goes.
     */
    static method Compile(lines: seq<SourceLine>) returns (r: Result<TuringMachine, CompileError>)
      ensures r.Ok? <==> CompileLines(lines).Ok?
      ensures r.Err? ==> r.error == CompileLines(lines).error
      ensures r.Ok? ==> fresh(r.value) && fresh(r.value.table) && fresh(r.value.tape) && r.value.table.Valid()
      ensures r.Ok? ==> var c := CompileLines(lines).value;
        r.value.Value() == FileValue(c.grid, c.tape, c.comment, c.solution)
    {
      if |lines| == 0 {
        return Err(EmptyProgram);
      }
      if !lines[0].kind.HeaderLine? {
        HeaderRequired(lines);
        return Err(HeaderMissing);
      }
      var header := lines[0].kind;
      assert lines[..1] == [lines[0]];
      assert CompileLines(lines[..1]) == CompileHeader(header.q, header.tape, header.pos);
      if header.pos.None? || (header.pos.value < 0 && |header.tape| == 0) {
        CompileStopsAtError(lines, 1);
        return Err(if header.pos.None? then PositionNotANumber else EmptyTapeNegativePosition);
      }
      var t, tp := StartProgram(header.q, header.tape, header.pos.value);
      var err, comment, solution := CompileRest(lines, t, tp);
      if err.Some? {
        return Err(err.value);
      }
      var m := new TuringMachine(t, tp, comment, solution);
      r := Ok(m);
    }

    /** The compile loop over the lines after the header, with the table and tape the header set up. */
    static method CompileRest(lines: seq<SourceLine>, t: Table, tp: Tape)
      returns (err: Option<CompileError>, comment: seq<Byte>, solution: seq<Byte>)
      requires 1 <= |lines| && t.Valid()
      requires CompileLines(lines[..1]) == Ok(Compiled(t.Value(), tp.Value(), [], [], false, false))
      modifies t
      ensures t.Valid()
      ensures err.Some? <==> CompileLines(lines).Err?
      ensures err.Some? ==> err.value == CompileLines(lines).error
      ensures err.None? ==> CompileLines(lines) == Ok(Compiled(t.Value(), tp.Value(), comment, solution,
                                                              CompileLines(lines).value.inSolution,
                                                              CompileLines(lines).value.inComment))
    {
      comment, solution := [], [];
      var inSolution, inComment := false, false;
      for i := 1 to |lines|
        invariant t.Valid()
        invariant CompileLines(lines[..i]) == Ok(Compiled(t.Value(), tp.Value(), comment, solution, inSolution, inComment))
      {
        CompileNext(lines, i);
        err, comment, solution, inSolution, inComment :=
          CompileLineInto(t, tp.Value(), lines[i], comment, solution, inSolution, inComment);
        if err.Some? {
          CompileStopsAtError(lines, i + 1);
          return;
        }
      }
      assert lines[..|lines|] == lines;
      err := None;
    }

    /** The table and the tape a header line sets up. */
    static method StartProgram(q: nat, text: seq<Byte>, p: int) returns (t: Table, tp: Tape)
      requires p >= 0 || |text| > 0
      ensures fresh(t) && fresh(tp) && t.Valid()
      ensures CompileHeader(q, text, Some(p)) == Ok(Compiled(t.Value(), tp.Value(), [], [], false, false))
    {
      var symbols := Dedup(text + [SPACE]);
      t := new Table(symbols, EmptyRows(symbols, q), q);
      tp := new Tape(0, |text| - 1, StartPosition(text, p), text);
    }

    /**
     * TuringMachine.execute: runs on the given tape, which it updates in
     * place, or on a copy of the machine's own tape, which stays as it was.
     * On a halt it returns the tape and the trace; on a fault the fault, the
     * tape being left as the run left it.
     */
    method Execute(input: Option<Tape>, max: nat) returns (t: Tape, r: Result<Trace, Fault>)
      requires input.Some? ==> input.value.Value().Consistent()
      requires input.None? ==> tape.Value().Consistent()
      modifies if input.Some? then {input.value} else {}
      ensures input.Some? ==> t == input.value
      ensures input.None? ==> fresh(t) && tape.Value() == old(tape.Value())
      ensures var o := Run(table.Value(), max, Start(if input.Some? then old(input.value.Value()) else old(tape.Value())));
        r == TraceOf(o) && t.Value() == o.c.tape
    {
      if input.Some? {
        t := input.value;
      } else {
        t := new Tape(tape.begin, tape.end, tape.pointer, tape.content);
      }
      var g := table.Value();
      ghost var init := Start(t.Value());
      var state := 1;
      var iterations := 0;
      var used := {t.pointer};
      var cmdCount: map<Slot, nat> := map[];
      var stateCount: map<nat, nat> := map[1 := 1];
      while state != 0
        invariant g == table.Value() && (input.Some? ==> t == input.value)
        invariant input.None? ==> fresh(t) && tape.Value() == old(tape.Value())
        invariant t.Value().Consistent() && iterations <= max + 1
        invariant Run(g, max, Config(state, t.Value(), iterations, used, cmdCount, stateCount)) == Run(g, max, init)
        decreases max + 1 - iterations
      {
        var fault;
        fault, state, iterations, used, cmdCount, stateCount := PassOn(t, g, max, state, iterations, used, cmdCount, stateCount);
        if fault.Some? {
          return t, Err(fault.value);
        }
      }
      r := Ok(Trace(iterations, |used|, cmdCount, stateCount));
    }
  }
}
