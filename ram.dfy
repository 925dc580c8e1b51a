/**
 * The unlimited register machine (ram_translator.py): a program of `inc`,
 * `zero`, `mov` and `jmp` commands, each with an optional `tag:` prefix
 * and `//` comment, is compiled into the numbered S/Z/T/J listing or run
 * on nine registers.
 */
module RamMachines {
  import opened Wrappers
  import opened Text

  /** A register number as the command grammar accepts it: one decimal digit. */
  type Reg = r: nat | r < 10

  datatype Op =
    | Inc(r: Reg)
    | Zero(r: Reg)
    | Mov(a: Reg, b: Reg)
    | Jump(tag: seq<Byte>)
    | JumpIf(a: Reg, b: Reg, tag: seq<Byte>)

  /** A command as the grammar tokenises it: the `tag:` prefix, the operation, the `//` comment. */
  datatype Command = Command(mark: Option<seq<Byte>>, op: Op, comment: Option<seq<Byte>>)

  /** A source line: a command, or text the grammar rejects. */
  datatype SourceLine = Parsed(command: Command) | Unparsable(text: seq<Byte>)

  /** RAMParsingException and RAMCompileException. */
  datatype RamError = ParseFailed(line: seq<Byte>) | TagMissing(tag: seq<Byte>)

  const END: seq<Byte> := "end"

  // ---------------------------------------------------------------------
  // RAMProgram._parse
  // ---------------------------------------------------------------------

  /** The commands of the lines; the first line the grammar rejects raises. */
  function ParseLines(lines: seq<SourceLine>): (r: Result<seq<Command>, RamError>)
    ensures r.Ok? <==> forall i :: 0 <= i < |lines| ==> lines[i].Parsed?
    ensures r.Ok? ==> |r.value| == |lines| && forall i :: 0 <= i < |lines| ==> r.value[i] == lines[i].command
    decreases |lines|
  {
    if lines == [] then Ok([])
    else
      match ParseLines(lines[..|lines| - 1])
      case Err(e) => Err(e)
      case Ok(cmds) =>
        match lines[|lines| - 1]
        case Unparsable(text) => Err(ParseFailed(text))
        case Parsed(c) => Ok(cmds + [c])
  }

  /** The command carries the tag `k`, compared lower-cased. */
  predicate Labelled(c: Command, k: seq<Byte>) {
    c.mark.Some? && Lower(c.mark.value) == k
  }

  /**
   * The tag table after the given commands of an `n`-line program: `end` is
   * line n + 1, and each tag, lower-cased, is the line of its first use.
   */
  function Tags(cmds: seq<Command>, n: nat): map<seq<Byte>, nat>
    decreases |cmds|
  {
    if cmds == [] then map[END := n + 1]
    else
      var t := Tags(cmds[..|cmds| - 1], n);
      var c := cmds[|cmds| - 1];
      if c.mark.Some? && Lower(c.mark.value) !in t then t[Lower(c.mark.value) := |cmds|] else t
  }

  /** `end` stands for line n + 1 whatever tags the program uses. */
  lemma {:induction false} TagsEnd(cmds: seq<Command>, n: nat)
    ensures END in Tags(cmds, n) && Tags(cmds, n)[END] == n + 1
    decreases |cmds|
  {
    if cmds != [] {
      TagsEnd(cmds[..|cmds| - 1], n);
    }
  }

  /** Every tag the program uses, lower-cased, is in the table. */
  lemma {:induction false} TagsKeys(cmds: seq<Command>, n: nat)
    ensures forall i :: 0 <= i < |cmds| && cmds[i].mark.Some? ==> Lower(cmds[i].mark.value) in Tags(cmds, n)
    decreases |cmds|
  {
    if cmds != [] {
      var m := |cmds|;
      var pre := cmds[..m - 1];
      TagsKeys(pre, n);
      forall i | 0 <= i < m - 1 && cmds[i].mark.Some? ensures Lower(cmds[i].mark.value) in Tags(cmds, n) {
        assert cmds[i] == pre[i];
      }
    }
  }

  /** Line `line` is the first to carry the tag `k`. */
  predicate FirstUse(cmds: seq<Command>, k: seq<Byte>, line: nat) {
    1 <= line <= |cmds| && Labelled(cmds[line - 1], k) && forall j :: 0 <= j < line - 1 ==> !Labelled(cmds[j], k)
  }

  /** A tag other than `end` stands for the line of its first use. */
  lemma {:induction false} TagsFirst(cmds: seq<Command>, n: nat)
    ensures forall k :: k in Tags(cmds, n) && k != END ==> FirstUse(cmds, k, Tags(cmds, n)[k])
    decreases |cmds|
  {
    if cmds != [] {
      var m := |cmds|;
      var pre := cmds[..m - 1];
      TagsFirst(pre, n);
      TagsKeys(pre, n);
      var t0, t := Tags(pre, n), Tags(cmds, n);
      forall k | k in t && k != END ensures FirstUse(cmds, k, t[k]) {
        if k in t0 {
          assert FirstUse(pre, k, t0[k]);
          assert t[k] == t0[k];
          forall j | 0 <= j < t[k] ensures cmds[j] == pre[j] {
          }
        } else {
          assert t[k] == m;
          forall j | 0 <= j < m - 1 ensures !Labelled(cmds[j], k) {
            assert cmds[j] == pre[j];
          }
        }
      }
    }
  }

  /** Every line number in the tag table of an `n`-line program lies between 1 and n + 1. */
  lemma {:induction false} TagsRange(cmds: seq<Command>, n: nat)
    requires |cmds| <= n
    ensures forall k :: k in Tags(cmds, n) ==> 1 <= Tags(cmds, n)[k] <= n + 1
    decreases |cmds|
  {
    if cmds != [] {
      TagsRange(cmds[..|cmds| - 1], n);
    }
  }

  // ---------------------------------------------------------------------
  // RAMProgram.compile and RAMProgram._form_postfix
  // ---------------------------------------------------------------------

  /** The jump's tag, as written, is in the table (the lookup is not lower-cased). */
  predicate Resolves(op: Op, tags: map<seq<Byte>, nat>) {
    match op
    case Jump(tag) => tag in tags && tags[tag] != 0
    case JumpIf(_, _, tag) => tag in tags && tags[tag] != 0
    case _ => true
  }

  /** _form_postfix without its line break: ` //comment`, the comment stripped, when there is one. */
  function CommentText(c: Command): seq<Byte> {
    if c.comment.Some? then " //" + Strip(c.comment.value) else []
  }

  /** The operation as the listing spells it, jump targets as line numbers. */
  function OpText(op: Op, tags: map<seq<Byte>, nat>): (r: Result<seq<Byte>, RamError>)
    ensures r.Ok? <==> Resolves(op, tags)
    ensures r.Err? ==> (op.Jump? || op.JumpIf?) && r.error == TagMissing(op.tag)
  {
    match op
    case Inc(r) => Ok("S(" + NatText(r) + ")")
    case Mov(a, b) => Ok("T(" + NatText(a) + "," + NatText(b) + ")")
    case Zero(r) => Ok("Z(" + NatText(r) + ")")
    case Jump(tag) =>
      if tag in tags && tags[tag] != 0 then Ok("J(1,1," + NatText(tags[tag]) + ")") else Err(TagMissing(tag))
    case JumpIf(a, b, tag) =>
      if tag in tags && tags[tag] != 0 then Ok("J(" + NatText(a) + "," + NatText(b) + "," + NatText(tags[tag]) + ")")
      else Err(TagMissing(tag))
  }

  /** The listing line of command number i + 1, or the tag it cannot find. */
  function LineBody(i: nat, c: Command, tags: map<seq<Byte>, nat>): (r: Result<seq<Byte>, RamError>)
    ensures r.Ok? <==> Resolves(c.op, tags)
  {
    var text := OpText(c.op, tags);
    if text.Err? then Err(text.error) else Ok(NatText(i + 1) + " " + text.value + CommentText(c))
  }

  /** The listing lines of the commands, each followed by a line break; the first unknown tag raises. */
  function ListingLines(cmds: seq<Command>, tags: map<seq<Byte>, nat>): Result<seq<Byte>, RamError>
    decreases |cmds|
  {
    if cmds == [] then Ok([])
    else
      var n := |cmds|;
      match ListingLines(cmds[..n - 1], tags)
      case Err(e) => Err(e)
      case Ok(text) =>
        match LineBody(n - 1, cmds[n - 1], tags)
        case Err(e) => Err(e)
        case Ok(body) => Ok(text + body + [LF])
  }

  /** Command i is the first whose jump does not resolve. */
  predicate FirstUnresolved(cmds: seq<Command>, tags: map<seq<Byte>, nat>, i: nat)
    requires i < |cmds|
  {
    (cmds[i].op.Jump? || cmds[i].op.JumpIf?) && !Resolves(cmds[i].op, tags) &&
    forall j :: 0 <= j < i ==> Resolves(cmds[j].op, tags)
  }

  /** The listing fails exactly when some jump's tag is not in the table. */
  lemma ListingOk(cmds: seq<Command>, tags: map<seq<Byte>, nat>)
    ensures ListingLines(cmds, tags).Ok? <==> forall i :: 0 <= i < |cmds| ==> Resolves(cmds[i].op, tags)
  {
    if ListingLines(cmds, tags).Ok? {
      ListingResolves(cmds, tags);
    } else if forall i :: 0 <= i < |cmds| ==> Resolves(cmds[i].op, tags) {
      ListingLinesText(cmds, tags);
    }
  }

  /** Every jump of a listing that compiled resolves. */
  lemma {:induction false} ListingResolves(cmds: seq<Command>, tags: map<seq<Byte>, nat>)
    requires ListingLines(cmds, tags).Ok?
    ensures forall i :: 0 <= i < |cmds| ==> Resolves(cmds[i].op, tags)
    decreases |cmds|
  {
    if cmds != [] {
      var n := |cmds|;
      var pre := cmds[..n - 1];
      assert ListingLines(pre, tags).Ok? && LineBody(n - 1, cmds[n - 1], tags).Ok?;
      ListingResolves(pre, tags);
      forall i | 0 <= i < n ensures Resolves(cmds[i].op, tags) {
        if i < n - 1 {
          assert pre[i] == cmds[i];
        }
      }
    }
  }

  /** A failing listing reports the tag of the first jump that does not resolve. */
  lemma {:induction false} ListingFirstError(cmds: seq<Command>, tags: map<seq<Byte>, nat>)
    requires ListingLines(cmds, tags).Err?
    ensures exists i :: 0 <= i < |cmds| && FirstUnresolved(cmds, tags, i) && ListingLines(cmds, tags).error == TagMissing(cmds[i].op.tag)
    decreases |cmds|
  {
    var n := |cmds|;
    var pre := cmds[..n - 1];
    var r := ListingLines(pre, tags);
    if r.Err? {
      ListingFirstError(pre, tags);
      var i :| 0 <= i < n - 1 && FirstUnresolved(pre, tags, i) && r.error == TagMissing(pre[i].op.tag);
      assert forall j :: 0 <= j <= i ==> pre[j] == cmds[j];
      assert FirstUnresolved(cmds, tags, i);
    } else {
      ListingOk(pre, tags);
      assert forall j :: 0 <= j < n - 1 ==> pre[j] == cmds[j];
      assert ListingLines(cmds, tags).error == OpText(cmds[n - 1].op, tags).error;
      assert FirstUnresolved(cmds, tags, n - 1);
    }
  }

  /** The last line of a listing: the number after the last command, then `*`. */
  function LastLine(n: nat): seq<Byte> {
    NatText(n + 1) + " *"
  }

  /** RAMProgram.compile */
  function Listing(cmds: seq<Command>, tags: map<seq<Byte>, nat>): Result<seq<Byte>, RamError> {
    match ListingLines(cmds, tags)
    case Err(e) => Err(e)
    case Ok(text) => Ok(text + LastLine(|cmds|))
  }

  /** The body of every line of a program whose jumps all resolve. */
  function Bodies(cmds: seq<Command>, tags: map<seq<Byte>, nat>): (r: seq<seq<Byte>>)
    requires forall i :: 0 <= i < |cmds| ==> Resolves(cmds[i].op, tags)
    ensures |r| == |cmds|
  {
    seq(|cmds|, i requires 0 <= i < |cmds| && Resolves(cmds[i].op, tags) => LineBody(i, cmds[i], tags).value)
  }

  lemma {:induction false} ListingLinesText(cmds: seq<Command>, tags: map<seq<Byte>, nat>)
    requires forall i :: 0 <= i < |cmds| ==> Resolves(cmds[i].op, tags)
    ensures ListingLines(cmds, tags) == Ok(LinesText(Bodies(cmds, tags)))
    decreases |cmds|
  {
    if cmds != [] {
      var n := |cmds|;
      var pre, b := cmds[..n - 1], Bodies(cmds, tags);
      assert forall i :: 0 <= i < n - 1 ==> pre[i] == cmds[i];
      ListingLinesText(pre, tags);
      assert b[..n - 1] == Bodies(pre, tags);
      assert LinesText(b) == LinesText(Bodies(pre, tags)) + b[n - 1] + [LF];
    }
  }

  /** Listing text other than comments is digits, letters and punctuation: never a line break. */
  lemma OpTextFree(op: Op, tags: map<seq<Byte>, nat>)
    requires Resolves(op, tags)
    ensures Free(OpText(op, tags).value, LF)
  {
    match op
    case Inc(r) => DigitsFree(NatText(r));
    case Mov(a, b) => DigitsFree(NatText(a)); DigitsFree(NatText(b));
    case Zero(r) => DigitsFree(NatText(r));
    case Jump(tag) => DigitsFree(NatText(tags[tag]));
    case JumpIf(a, b, tag) => DigitsFree(NatText(a)); DigitsFree(NatText(b)); DigitsFree(NatText(tags[tag]));
  }

  lemma DigitsFree(s: seq<Byte>)
    requires AllDigits(s)
    ensures Free(s, LF)
  {
  }

  /** A line holds no line break when its comment holds none. */
  lemma BodyFree(i: nat, c: Command, tags: map<seq<Byte>, nat>)
    requires Resolves(c.op, tags)
    requires c.comment.Some? ==> Free(c.comment.value, LF)
    ensures Free(LineBody(i, c, tags).value, LF)
  {
    var text := OpText(c.op, tags).value;
    assert LineBody(i, c, tags).value == NatText(i + 1) + " " + text + CommentText(c);
    OpTextFree(c.op, tags);
    DigitsFree(NatText(i + 1));
    if c.comment.Some? {
      var l := LStrip(c.comment.value);
      assert Free(l, LF);
      assert Free(RStrip(l), LF);
    }
    assert Free(CommentText(c), LF);
  }

  /** Each line starts with its number and a space. */
  lemma BodyNumbered(i: nat, c: Command, tags: map<seq<Byte>, nat>)
    requires Resolves(c.op, tags)
    ensures NatText(i + 1) + " " <= LineBody(i, c, tags).value
  {
    var head := NatText(i + 1) + " ";
    var text := OpText(c.op, tags).value;
    var rest := text + CommentText(c);
    assert LineBody(i, c, tags).value == head + text + CommentText(c);
    AppendAssoc(head, text, CommentText(c));
    assert (head + rest)[..|head|] == head;
  }

  /**
   * The listing has one line per command, numbered from 1 and in program
   * order, then the line `n+1 *`, when no comment holds a line break.
   */
  lemma ListingNumbered(cmds: seq<Command>, tags: map<seq<Byte>, nat>)
    requires forall i :: 0 <= i < |cmds| ==> Resolves(cmds[i].op, tags)
    requires forall i :: 0 <= i < |cmds| && cmds[i].comment.Some? ==> Free(cmds[i].comment.value, LF)
    ensures Listing(cmds, tags).Ok?
    ensures var lines := Split(Listing(cmds, tags).value, [LF]);
      |lines| == |cmds| + 1 && lines[|cmds|] == LastLine(|cmds|) &&
      forall i :: 0 <= i < |cmds| ==> lines[i] == LineBody(i, cmds[i], tags).value && NatText(i + 1) + " " <= lines[i]
  {
    var bodies := Bodies(cmds, tags);
    var last := LastLine(|cmds|);
    ListingLinesText(cmds, tags);
    forall i | 0 <= i < |cmds| ensures Free(bodies[i], LF) && NatText(i + 1) + " " <= bodies[i] {
      BodyFree(i, cmds[i], tags);
      BodyNumbered(i, cmds[i], tags);
    }
    SplitLines(bodies, last);
    DigitsFree(NatText(|cmds| + 1));
    SplitFromFree(last, [], [LF], []);
    assert last + [] == last;
    assert [] + last == last;
    assert Split(last, [LF]) == [last];
  }

  // ---------------------------------------------------------------------
  // RAMMachine.execute: the specification
  // ---------------------------------------------------------------------

  /** Python's registers[r - 1] on the nine-element list: register 0 indexes -1, the last register. */
  function Slot(r: Reg): (k: nat)
    ensures k < 9
  {
    if r == 0 then 8 else r - 1
  }

  function Zeros(): (z: seq<int>)
    ensures |z| == 9 && forall i :: 0 <= i < 9 ==> z[i] == 0
  {
    seq(9, i => 0)
  }

  /** RAMRuntimeError for the limit and for an unknown tag, the IndexError of `R10`, and the fuel bound. */
  datatype RamFault = LimitReached | TagNotFound(tag: seq<Byte>) | RegisterIndex | OutOfFuel

  /** The interpreter's state: instruction pointer, fall-through steps, registers and command counts. */
  datatype RamState = RamState(ip: nat, iterations: nat, regs: seq<int>, counts: map<seq<Byte>, nat>)

  /** The jump is taken: an unconditional one, or a conditional one on equal registers. */
  predicate Taken(c: Command, regs: seq<int>)
    requires |regs| == 9
  {
    c.op.Jump? || (c.op.JumpIf? && regs[Slot(c.op.a)] == regs[Slot(c.op.b)])
  }

  /** The key a command is counted under in command_exec_count. */
  function CountKey(op: Op, target: nat): seq<Byte> {
    match op
    case Inc(r) => "S(" + NatText(r) + ")"
    case Mov(a, b) => "T(" + NatText(a) + ", " + NatText(b) + ")"
    case Zero(r) => "Z(" + NatText(r) + ")"
    case Jump(_) => "J(1, 1, " + NatText(target) + ")"
    case JumpIf(a, b, _) => "J(" + NatText(a) + ", " + NatText(b) + ", " + NatText(target) + ")"
  }

  /** A command that falls through to the next line. */
  function Advance(s: RamState, regs: seq<int>, key: seq<Byte>): RamState {
    RamState(s.ip + 1, s.iterations + 1, regs, Bump(s.counts, key))
  }

  /** One command of execute's loop. */
  function Step(cmds: seq<Command>, tags: map<seq<Byte>, nat>, s: RamState): (r: Result<RamState, RamFault>)
    requires s.ip < |cmds| && |s.regs| == 9
    ensures r.Ok? ==> |r.value.regs| == 9
  {
    var c := cmds[s.ip];
    match c.op
    case Inc(r) => Ok(Advance(s, s.regs[Slot(r) := s.regs[Slot(r)] + 1], CountKey(c.op, 0)))
    case Mov(a, b) => Ok(Advance(s, s.regs[Slot(b) := s.regs[Slot(a)]], CountKey(c.op, 0)))
    case Zero(r) => Ok(Advance(s, s.regs[Slot(r) := 0], CountKey(c.op, 0)))
    case Jump(tag) =>
      if tag in tags && tags[tag] != 0 then
        Ok(s.(ip := tags[tag] - 1, counts := Bump(s.counts, CountKey(c.op, tags[tag]))))
      else Err(TagNotFound(tag))
    case JumpIf(a, b, tag) =>
      if tag in tags && tags[tag] != 0 then
        if s.regs[Slot(a)] == s.regs[Slot(b)] then
          Ok(s.(ip := tags[tag] - 1, counts := Bump(s.counts, CountKey(c.op, tags[tag]))))
        else Ok(Advance(s, s.regs, CountKey(c.op, tags[tag])))
      else Err(TagNotFound(tag))
  }

  /**
   * What one command does: `inc r` adds one to register r, `zero r` clears
   * it, `mov a b` copies register a into b, and no other register changes;
   * a taken jump goes to its tag's line without counting a step, every
   * other command counts one step and goes to the next line; only a jump to
   * an unknown tag fails.
   */
  lemma StepEffect(cmds: seq<Command>, tags: map<seq<Byte>, nat>, s: RamState)
    requires s.ip < |cmds| && |s.regs| == 9
    ensures var c, r := cmds[s.ip], Step(cmds, tags, s);
      (r.Ok? <==> Resolves(c.op, tags)) &&
      (r.Ok? ==> var t := r.value;
        (Taken(c, s.regs) ==> t.ip + 1 == tags[c.op.tag] && t.iterations == s.iterations && t.regs == s.regs) &&
        (!Taken(c, s.regs) ==> t.ip == s.ip + 1 && t.iterations == s.iterations + 1) &&
        (c.op.Inc? ==> t.regs[Slot(c.op.r)] == s.regs[Slot(c.op.r)] + 1) &&
        (c.op.Zero? ==> t.regs[Slot(c.op.r)] == 0) &&
        (c.op.Mov? ==> t.regs[Slot(c.op.b)] == s.regs[Slot(c.op.a)]) &&
        (forall k :: 0 <= k < 9 && !Writes(c.op, k) ==> t.regs[k] == s.regs[k]))
  {
  }

  /** The register a command writes, if any. */
  predicate Writes(op: Op, k: nat) {
    match op
    case Inc(r) => k == Slot(r)
    case Zero(r) => k == Slot(r)
    case Mov(_, b) => k == Slot(b)
    case _ => false
  }

  /** How a run ended: the state at that point and the fault raised, if any. */
  datatype RamOutcome = RamOutcome(state: RamState, fault: Option<RamFault>)

  /**
   * execute's loop from a state: it stops once the pointer is past the last
   * command, raises when more than `max` steps have been counted, and runs
   * out after `fuel` commands.
   */
  function RunRam(cmds: seq<Command>, tags: map<seq<Byte>, nat>, max: nat, s: RamState, fuel: nat): (o: RamOutcome)
    requires |s.regs| == 9
    ensures |o.state.regs| == 9
    decreases fuel
  {
    if s.ip >= |cmds| then RamOutcome(s, None)
    else if s.iterations > max then RamOutcome(s, Some(LimitReached))
    else if fuel == 0 then RamOutcome(s, Some(OutOfFuel))
    else
      match Step(cmds, tags, s)
      case Err(e) => RamOutcome(s, Some(e))
      case Ok(t) => RunRam(cmds, tags, max, t, fuel - 1)
  }

  /**
   * A run that ends normally stops exactly past the last command, having
   * counted at most `max + 1` steps, when the tags point into the program.
   */
  lemma {:induction false} RunEnds(cmds: seq<Command>, tags: map<seq<Byte>, nat>, max: nat, s: RamState, fuel: nat)
    requires |s.regs| == 9 && s.ip <= |cmds| && s.iterations <= max + 1
    requires forall k :: k in tags ==> tags[k] <= |cmds| + 1
    requires RunRam(cmds, tags, max, s, fuel).fault.None?
    ensures RunRam(cmds, tags, max, s, fuel).state.ip == |cmds|
    ensures RunRam(cmds, tags, max, s, fuel).state.iterations <= max + 1
    decreases fuel
  {
    if s.ip < |cmds| {
      var t := Step(cmds, tags, s).value;
      RunEnds(cmds, tags, max, t, fuel - 1);
    }
  }

  /** A run that ends without running out of fuel ends the same way with more fuel. */
  lemma {:induction false} FuelEnough(cmds: seq<Command>, tags: map<seq<Byte>, nat>, max: nat, s: RamState, fuel: nat, more: nat)
    requires |s.regs| == 9 && fuel <= more
    requires RunRam(cmds, tags, max, s, fuel).fault != Some(OutOfFuel)
    ensures RunRam(cmds, tags, max, s, more) == RunRam(cmds, tags, max, s, fuel)
    decreases fuel
  {
    if s.ip < |cmds| && s.iterations <= max && fuel > 0 {
      if Step(cmds, tags, s).Ok? {
        FuelEnough(cmds, tags, max, Step(cmds, tags, s).value, fuel - 1, more - 1);
      }
    }
  }

  /** The one-line program `l: jmp l`. */
  function JumpLoop(): seq<Command> {
    [Command(Some("l"), Jump("l"), None)]
  }

  /**
   * Taken jumps are not counted, so `l: jmp l` never reaches the limit:
   * whatever the limit and the fuel, the run only ends by running out of
   * fuel; the source loops forever on it.
   */
  lemma {:induction false} JumpLoopNeverEnds(max: nat, regs: seq<int>, counts: map<seq<Byte>, nat>, fuel: nat)
    requires |regs| == 9
    ensures RunRam(JumpLoop(), Tags(JumpLoop(), 1), max, RamState(0, 0, regs, counts), fuel).fault == Some(OutOfFuel)
    decreases fuel
  {
    var cmds := JumpLoop();
    var tags := Tags(cmds, 1);
    assert Lower("l") == "l";
    assert tags == map[END := 2]["l" := 1];
    if fuel > 0 {
      var t := Step(cmds, tags, RamState(0, 0, regs, counts)).value;
      assert t == RamState(0, 0, regs, Bump(counts, CountKey(Jump("l"), 1)));
      JumpLoopNeverEnds(max, regs, Bump(counts, CountKey(Jump("l"), 1)), fuel - 1);
    }
  }

  // ---------------------------------------------------------------------
  // Register arguments (execute's **kwargs)
  // ---------------------------------------------------------------------

  /** The register a keyword `R<digits>` names, as int(digits) - 1; other keywords name none. */
  function ArgSlot(key: seq<Byte>): Option<int> {
    if |key| > 1 && key[0] == 'R' && AllDigits(key[1..]) then Some(DigitsValue(key[1..]) - 1) else None
  }

  /**
   * The keyword arguments in order: `R1`..`R9` set their register, `R10`
   * raises IndexError on the nine-element list, other keywords are ignored.
   */
  function SetArgs(regs: seq<int>, args: seq<(seq<Byte>, int)>): (r: (seq<int>, Option<RamFault>))
    requires |regs| == 9
    ensures |r.0| == 9
    decreases |args|
  {
    if args == [] then (regs, None)
    else
      var (prev, fault) := SetArgs(regs, args[..|args| - 1]);
      var (key, value) := args[|args| - 1];
      if fault.Some? then (prev, fault)
      else
        match ArgSlot(key)
        case None => (prev, None)
        case Some(k) =>
          if 0 <= k < 9 then (prev[k := value], None)
          else if k == 9 then (prev, Some(RegisterIndex))
          else (prev, None)
  }

  /**
   * Without a fault each register holds the value of the last argument
   * naming it, or its old value when no argument names it; a fault comes
   * exactly from an argument naming the tenth register.
   */
  lemma {:induction false} SetArgsValues(regs: seq<int>, args: seq<(seq<Byte>, int)>)
    requires |regs| == 9
    ensures var (r, fault) := SetArgs(regs, args);
      (fault.Some? <==> exists i :: 0 <= i < |args| && ArgSlot(args[i].0) == Some(9)) &&
      (fault.None? ==> forall k :: 0 <= k < 9 ==>
        r[k] == (if exists i :: 0 <= i < |args| && ArgSlot(args[i].0) == Some(k)
                 then args[LastNaming(args, k)].1 else regs[k]))
    decreases |args|
  {
    if args != [] {
      var n := |args|;
      var pre := args[..n - 1];
      SetArgsValues(regs, pre);
      assert forall i :: 0 <= i < n - 1 ==> pre[i] == args[i];
      forall k | 0 <= k < 9 && exists i :: 0 <= i < |args| && ArgSlot(args[i].0) == Some(k)
        ensures ArgSlot(args[n - 1].0) != Some(k) ==> LastNaming(args, k) == LastNaming(pre, k)
      {
      }
    }
  }

  /** The position of the last argument naming register slot `k`. */
  function LastNaming(args: seq<(seq<Byte>, int)>, k: int): (i: nat)
    requires exists i :: 0 <= i < |args| && ArgSlot(args[i].0) == Some(k)
    ensures i < |args| && ArgSlot(args[i].0) == Some(k)
    ensures forall j :: i < j < |args| ==> ArgSlot(args[j].0) != Some(k)
    decreases |args|
  {
    if ArgSlot(args[|args| - 1].0) == Some(k) then |args| - 1
    else
      var i :| 0 <= i < |args| && ArgSlot(args[i].0) == Some(k);
      assert i < |args| - 1 && args[..|args| - 1][i] == args[i];
      LastNaming(args[..|args| - 1], k)
  }

  /** The trace execute returns: command counts, steps counted, and the registers before and after. */
  datatype RamTrace = RamTrace(counts: map<seq<Byte>, nat>, executed: nat, initial: seq<int>, final: seq<int>)

  // ---------------------------------------------------------------------
  // The objects
  // ---------------------------------------------------------------------

  /** RAMProgram: the commands and the tag table. */
  class RAMProgram {
    var jumps: map<seq<Byte>, nat>
    var commands: seq<Command>

    constructor ()
      ensures jumps == map[] && commands == []
    {
      jumps := map[];
      commands := [];
    }

    /** RAMProgram._parse on a fresh program. */
    method Parse(lines: seq<SourceLine>) returns (err: Option<RamError>)
      requires jumps == map[] && commands == []
      modifies this
      ensures err.None? <==> ParseLines(lines).Ok?
      ensures err.Some? ==> err.value == ParseLines(lines).error
      ensures err.None? ==> commands == ParseLines(lines).value && jumps == Tags(commands, |lines|)
    {
      jumps := jumps[END := |lines| + 1];
      for i := 0 to |lines|
        invariant ParseLines(lines[..i]).Ok? && commands == ParseLines(lines[..i]).value
        invariant jumps == Tags(commands, |lines|)
      {
        assert lines[..i + 1][..i] == lines[..i];
        match lines[i] {
          case Unparsable(text) =>
            ParseStops(lines, i + 1);
            return Some(ParseFailed(text));
          case Parsed(c) =>
            if c.mark.Some? {
              var tag := Lower(c.mark.value);
              if tag !in jumps {
                jumps := jumps[tag := i + 1];
              }
            }
            assert (commands + [c])[..i] == commands;
            commands := commands + [c];
        }
      }
      assert lines[..|lines|] == lines;
      return None;
    }

    /** RAMProgram(lines) */
    static method New(lines: seq<SourceLine>) returns (r: Result<RAMProgram, RamError>)
      ensures r.Ok? <==> ParseLines(lines).Ok?
      ensures r.Err? ==> r.error == ParseLines(lines).error
      ensures r.Ok? ==> (fresh(r.value) && r.value.commands == ParseLines(lines).value &&
                         r.value.jumps == Tags(r.value.commands, |lines|))
    {
      var p := new RAMProgram();
      var err := p.Parse(lines);
      if err.Some? {
        return Err(err.value);
      }
      return Ok(p);
    }

    /** RAMProgram.compile: the listing, built line by line. */
    method Compile() returns (r: Result<seq<Byte>, RamError>)
      ensures r == Listing(commands, jumps)
    {
      var program: seq<Byte> := [];
      for i := 0 to |commands|
        invariant ListingLines(commands[..i], jumps) == Ok(program)
      {
        assert commands[..i + 1][..i] == commands[..i];
        var line := LineBody(i, commands[i], jumps);
        if line.Err? {
          ListingStops(commands, jumps, i + 1);
          return Err(line.error);
        }
        program := program + line.value + [LF];
      }
      assert commands[..|commands|] == commands;
      return Ok(program + LastLine(|commands|));
    }
  }

  /** The first unparsable line is the one reported. */
  lemma {:induction false} ParseStops(lines: seq<SourceLine>, n: nat)
    requires n <= |lines| && ParseLines(lines[..n]).Err?
    ensures ParseLines(lines) == ParseLines(lines[..n])
    decreases |lines| - n
  {
    if n < |lines| {
      var m := |lines|;
      assert lines[..m - 1][..n] == lines[..n];
      ParseStops(lines[..m - 1], n);
    } else {
      assert lines[..n] == lines;
    }
  }

  /** The first jump to an unknown tag is the one reported. */
  lemma {:induction false} ListingStops(cmds: seq<Command>, tags: map<seq<Byte>, nat>, n: nat)
    requires n <= |cmds| && ListingLines(cmds[..n], tags).Err?
    ensures ListingLines(cmds, tags) == ListingLines(cmds[..n], tags)
    decreases |cmds| - n
  {
    if n < |cmds| {
      var m := |cmds|;
      assert cmds[..m - 1][..n] == cmds[..n];
      ListingStops(cmds[..m - 1], tags, n);
    } else {
      assert cmds[..n] == cmds;
    }
  }

  /** RAMMachine: nine registers and the program it runs. */
  class RAMMachine {
    var registers: array<int>
    var program: RAMProgram

    predicate Valid()
      reads this
    {
      registers.Length == 9
    }

    constructor (program: RAMProgram)
      ensures Valid() && fresh(registers) && registers[..] == Zeros() && this.program == program
    {
      registers := new int[9](i => 0);
      this.program := program;
    }

    /** RAMMachine.null_registers: a new list of nine zeros. */
    method NullRegisters()
      modifies this
      ensures Valid() && fresh(registers) && registers[..] == Zeros() && program == old(program)
    {
      registers := new int[9](i => 0);
    }

    /** The keyword arguments written into the registers in order. */
    method SetRegisterArgs(args: seq<(seq<Byte>, int)>) returns (fault: Option<RamFault>)
      requires Valid()
      modifies registers
      ensures (registers[..], fault) == SetArgs(old(registers[..]), args)
    {
      for i := 0 to |args|
        invariant SetArgs(old(registers[..]), args[..i]) == (registers[..], None)
      {
        assert args[..i + 1][..i] == args[..i];
        var (key, value) := args[i];
        var slot := ArgSlot(key);
        if slot.Some? && 0 <= slot.value < 10 {
          if slot.value == 9 {
            SetArgsStops(old(registers[..]), args, i + 1);
            return Some(RegisterIndex);
          }
          registers[slot.value] := value;
        }
      }
      assert args[..|args|] == args;
      return None;
    }

    /**
     * RAMMachine.execute: with keyword arguments the registers are cleared
     * and set first, then the program runs from its first command.
     */
    method Execute(max: nat, args: seq<(seq<Byte>, int)>, fuel: nat) returns (r: Result<RamTrace, RamFault>)
      requires Valid()
      modifies this, registers
      ensures Valid() && program == old(program)
      ensures var (start, argFault) := if |args| > 0 then SetArgs(Zeros(), args) else (old(registers[..]), None);
        if argFault.Some? then r == Err(argFault.value) && registers[..] == start
        else Ran(program.commands, program.jumps, max, start, fuel, r, registers[..])
    {
      if |args| > 0 {
        NullRegisters();
        var fault := SetRegisterArgs(args);
        if fault.Some? {
          return Err(fault.value);
        }
      }
      r := Run(max, fuel);
    }

    /** execute's loop from the first command, on the registers in place. */
    method Run(max: nat, fuel: nat) returns (r: Result<RamTrace, RamFault>)
      requires Valid()
      modifies registers
      ensures Ran(program.commands, program.jumps, max, old(registers[..]), fuel, r, registers[..])
    {
      var initial := registers[..];
      var cmds, tags := program.commands, program.jumps;
      ghost var outcome := RunRam(cmds, tags, max, RamState(0, 0, initial, map[]), fuel);
      var ip: nat, iterations: nat, counts: map<seq<Byte>, nat>, left := 0, 0, map[], fuel;
      while ip < |cmds|
        invariant RunRam(cmds, tags, max, RamState(ip, iterations, registers[..], counts), left) == outcome
        decreases left
      {
        if iterations > max {
          return Err(LimitReached);
        }
        if left == 0 {
          return Err(OutOfFuel);
        }
        var fault;
        fault, ip, iterations, counts := StepOn(cmds, tags, ip, iterations, counts);
        if fault.Some? {
          return Err(fault.value);
        }
        left := left - 1;
      }
      return Ok(RamTrace(counts, iterations, initial, registers[..]));
    }

    /** One command of execute's loop, on the registers in place. */
    method StepOn(cmds: seq<Command>, tags: map<seq<Byte>, nat>, ip: nat, iterations: nat, counts: map<seq<Byte>, nat>)
      returns (fault: Option<RamFault>, ip': nat, iterations': nat, counts': map<seq<Byte>, nat>)
      requires Valid() && ip < |cmds|
      modifies registers
      ensures var r := Step(cmds, tags, RamState(ip, iterations, old(registers[..]), counts));
        (fault.Some? <==> r.Err?) && (fault.Some? ==> fault.value == r.error && registers[..] == old(registers[..])) &&
        (r.Ok? ==> r.value == RamState(ip', iterations', registers[..], counts'))
    {
      fault, ip', iterations', counts' := None, ip + 1, iterations + 1, counts;
      var c := cmds[ip];
      match c.op {
        case Inc(reg) =>
          counts' := Bump(counts, CountKey(c.op, 0));
          registers[Slot(reg)] := registers[Slot(reg)] + 1;
        case Mov(a, b) =>
          counts' := Bump(counts, CountKey(c.op, 0));
          registers[Slot(b)] := registers[Slot(a)];
        case Zero(reg) =>
          counts' := Bump(counts, CountKey(c.op, 0));
          registers[Slot(reg)] := 0;
        case Jump(tag) =>
          if tag in tags && tags[tag] != 0 {
            var jmp := tags[tag] - 1;
            counts' := Bump(counts, CountKey(c.op, jmp + 1));
            ip', iterations' := jmp, iterations;
          } else {
            fault := Some(TagNotFound(tag));
          }
        case JumpIf(a, b, tag) =>
          if tag in tags && tags[tag] != 0 {
            var jmp := tags[tag] - 1;
            counts' := Bump(counts, CountKey(c.op, jmp + 1));
            if registers[Slot(a)] == registers[Slot(b)] {
              ip', iterations' := jmp, iterations;
            }
          } else {
            fault := Some(TagNotFound(tag));
          }
      }
    }
  }

  /**
   * A run from `start` ended with `r` and left the registers as `regs`:
   * RunRam's outcome, the trace when it raised nothing and the fault when
   * it did.
   */
  predicate Ran(cmds: seq<Command>, tags: map<seq<Byte>, nat>, max: nat, start: seq<int>, fuel: nat,
                r: Result<RamTrace, RamFault>, regs: seq<int>)
    requires |start| == 9
  {
    var o := RunRam(cmds, tags, max, RamState(0, 0, start, map[]), fuel);
    regs == o.state.regs &&
    r == (if o.fault.Some? then Err(o.fault.value) else Ok(RamTrace(o.state.counts, o.state.iterations, start, o.state.regs)))
  }

  /** An argument naming the tenth register stops the arguments there. */
  lemma {:induction false} SetArgsStops(regs: seq<int>, args: seq<(seq<Byte>, int)>, n: nat)
    requires |regs| == 9 && n <= |args| && SetArgs(regs, args[..n]).1.Some?
    ensures SetArgs(regs, args) == SetArgs(regs, args[..n])
    decreases |args| - n
  {
    if n < |args| {
      var m := |args|;
      assert args[..m - 1][..n] == args[..n];
      SetArgsStops(regs, args[..m - 1], n);
    } else {
      assert args[..n] == args;
    }
  }
}
