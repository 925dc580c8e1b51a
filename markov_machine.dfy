/**
 * MarkovMachine (altmarkov.py): compiling a program text into a rule
 * table, an input word and a solution text, and running the normal
 * algorithm: on each pass the first rule whose pattern occurs in the word
 * rewrites its leftmost occurrence, until no rule applies or a terminal
 * rule (replacement starting or ending with `.`) has been applied.
 */
module MarkovMachines {
  import opened Wrappers
  import opened Text
  import opened MarkovTable

  // ---------------------------------------------------------------------
  // MarkovMachine.compile
  // ---------------------------------------------------------------------

  /**
   * A stripped source line as the templates classify it, tried in the
   * source's order: a rule with a `//` comment, a rule, a WORD line, a
   * SOLUTION line, anything else.
   */
  datatype LineKind =
    | CommentedRule(src: seq<Byte>, dst: seq<Byte>, comment: seq<Byte>)
    | PlainRule(src: seq<Byte>, dst: seq<Byte>)
    | WordLine(word: seq<Byte>)
    | SolutionLine(solution: seq<Byte>)
    | OtherLine

  datatype SourceLine = SourceLine(text: seq<Byte>, kind: LineKind)

  /** MarkovCompileException("Unrecognized line: ...") with the stripped line. */
  datatype CompileError = UnrecognizedLine(line: seq<Byte>)

  /** What compile has gathered so far: the raw rows, the word, the solution and the is_solution flag. */
  datatype Compiled = Compiled(fields: seq<Field>, word: seq<Byte>, solution: seq<Byte>, inSolution: bool)

  predicate IsRule(k: LineKind) {
    k.CommentedRule? || k.PlainRule?
  }

  /** The row a rule line contributes: pattern, replacement and, when present, the comment. */
  function RuleField(k: LineKind): Field
    requires IsRule(k)
  {
    match k
    case CommentedRule(src, dst, comment) => [src, dst, comment]
    case PlainRule(src, dst) => [src, dst]
  }

  /** A line that is not taken as a rule, a word or a solution: more solution text, or an error. */
  function Continued(c: Compiled, text: seq<Byte>): Result<Compiled, CompileError> {
    if c.inSolution then Ok(c.(solution := c.solution + [LF] + Strip(text)))
    else Err(UnrecognizedLine(Strip(text)))
  }

  /**
   * One line of compile. A line is rejected exactly when it is not a rule,
   * no solution text is being continued, and it is not the first WORD or
   * SOLUTION line.
   */
  function CompileLine(c: Compiled, line: SourceLine): (r: Result<Compiled, CompileError>)
    ensures r.Err? <==>
      (!IsRule(line.kind) && !c.inSolution &&
       !(line.kind.WordLine? && c.word == []) && !(line.kind.SolutionLine? && c.solution == []))
    ensures r.Err? ==> r.error == UnrecognizedLine(Strip(line.text))
  {
    match line.kind
    case CommentedRule(src, dst, comment) => Ok(c.(fields := c.fields + [[src, dst, comment]], inSolution := false))
    case PlainRule(src, dst) => Ok(c.(fields := c.fields + [[src, dst]], inSolution := false))
    case WordLine(w) => if c.word == [] then Ok(c.(word := w, inSolution := false)) else Continued(c, line.text)
    case SolutionLine(s) => if c.solution == [] then Ok(c.(solution := s, inSolution := true)) else Continued(c, line.text)
    case OtherLine => Continued(c, line.text)
  }

  /** compile over the lines read so far, starting from an empty word and solution. */
  function CompileLines(lines: seq<SourceLine>): (r: Result<Compiled, CompileError>)
    ensures r.Ok? ==> forall i :: 0 <= i < |r.value.fields| ==> 2 <= |r.value.fields[i]| <= 3
    decreases |lines|
  {
    if lines == [] then Ok(Compiled([], [], [], false))
    else
      match CompileLines(lines[..|lines| - 1])
      case Err(e) => Err(e)
      case Ok(c) => CompileLine(c, lines[|lines| - 1])
  }

  /** The rows of the rule lines, in the order of the lines. */
  function RuleFields(lines: seq<SourceLine>): seq<Field>
    decreases |lines|
  {
    if lines == [] then []
    else
      var last := lines[|lines| - 1].kind;
      RuleFields(lines[..|lines| - 1]) + if IsRule(last) then [RuleField(last)] else []
  }

  /** The compiled rows are exactly the rule lines, in order; every other line adds no row. */
  lemma {:induction false} CompiledRules(lines: seq<SourceLine>)
    requires CompileLines(lines).Ok?
    ensures CompileLines(lines).value.fields == RuleFields(lines)
    decreases |lines|
  {
    if lines != [] {
      CompiledRules(lines[..|lines| - 1]);
    }
  }

  /** A program of rules alone always compiles, with an empty word and solution. */
  lemma {:induction false} RulesOnly(lines: seq<SourceLine>)
    requires forall i :: 0 <= i < |lines| ==> IsRule(lines[i].kind)
    ensures CompileLines(lines) == Ok(Compiled(RuleFields(lines), [], [], false))
    decreases |lines|
  {
    if lines != [] {
      var n := |lines|;
      assert forall i :: 0 <= i < n - 1 ==> lines[..n - 1][i] == lines[i];
      RulesOnly(lines[..n - 1]);
    }
  }

  /**
   * Compiling more lines never changes a word once it is non-empty (the
   * first non-empty WORD wins) and only ever extends the solution text.
   */
  lemma {:induction false} CompileKeeps(lines: seq<SourceLine>, n: nat)
    requires n <= |lines| && CompileLines(lines).Ok?
    ensures CompileLines(lines[..n]).Ok?
    ensures var before, after := CompileLines(lines[..n]).value, CompileLines(lines).value;
      (before.word != [] ==> after.word == before.word) && before.solution <= after.solution
    decreases |lines| - n
  {
    if n == |lines| {
      assert lines[..n] == lines;
    } else {
      var m := |lines|;
      assert lines[..m - 1][..n] == lines[..n];
      CompileKeeps(lines[..m - 1], n);
      var c := CompileLines(lines[..m - 1]).value;
      assert CompileLines(lines) == CompileLine(c, lines[m - 1]);
    }
  }

  /** The first rejected line is the error compile reports: nothing after it is read. */
  lemma {:induction false} CompileStopsAtError(lines: seq<SourceLine>, n: nat)
    requires n <= |lines| && CompileLines(lines[..n]).Err?
    ensures CompileLines(lines) == CompileLines(lines[..n])
    decreases |lines| - n
  {
    if n < |lines| {
      var m := |lines|;
      assert lines[..m - 1][..n] == lines[..n];
      CompileStopsAtError(lines[..m - 1], n);
    } else {
      assert lines[..n] == lines;
    }
  }

  // ---------------------------------------------------------------------
  // MarkovMachine.execute: the specification
  // ---------------------------------------------------------------------

  const ARROW: seq<Byte> := "->"
  const DOT: Byte := '.'

  /** The rows of a table as rules, each read by Table.recognize_field. */
  function Rules(fields: seq<Field>): (rules: seq<Rule>)
    requires forall i :: 0 <= i < |fields| ==> |fields[i]| <= 3
    ensures |rules| == |fields| && forall i :: 0 <= i < |fields| ==> RecognizeField(fields[i]) == Ok(rules[i])
  {
    seq(|fields|, i requires 0 <= i < |fields| && |fields[i]| <= 3 => RecognizeField(fields[i]).value)
  }

  /** `src in word` */
  predicate Occurs(word: seq<Byte>, src: seq<Byte>) {
    Find(word, src).Some?
  }

  /** The first rule at or after `from` whose pattern occurs in the word. */
  function Scan(rules: seq<Rule>, word: seq<Byte>, from: nat): (r: Option<nat>)
    ensures r.Some? ==> from <= r.value < |rules| && Occurs(word, rules[r.value].src)
    ensures r.Some? ==> forall j :: from <= j < r.value ==> !Occurs(word, rules[j].src)
    ensures r.None? ==> forall j :: from <= j < |rules| ==> !Occurs(word, rules[j].src)
    decreases |rules| - from
  {
    if from >= |rules| then None
    else if Occurs(word, rules[from].src) then Some(from)
    else Scan(rules, word, from + 1)
  }

  /** A replacement starting or ending with a dot ends the run after it is applied. */
  predicate Terminal(dst: seq<Byte>) {
    |dst| > 0 && (dst[0] == DOT || dst[|dst| - 1] == DOT)
  }

  /** The text written in place of the pattern: one marking dot removed, the leading one first. */
  function Replacement(dst: seq<Byte>): (r: seq<Byte>)
    ensures Terminal(dst) ==> |r| == |dst| - 1
    ensures !Terminal(dst) ==> r == dst
  {
    if |dst| > 0 && dst[0] == DOT then dst[1..]
    else if |dst| > 0 && dst[|dst| - 1] == DOT then dst[..|dst| - 1]
    else dst
  }

  /** The key under which a rule's uses are counted: `src->dst`, with `->.` for a terminal rule. */
  function Pattern(rule: Rule): seq<Byte> {
    if Terminal(rule.dst) then rule.src + ARROW + [DOT] + Replacement(rule.dst)
    else rule.src + ARROW + rule.dst
  }

  /** Applying a rule: an empty pattern puts the replacement in front, otherwise the leftmost occurrence is replaced. */
  function Rewrite(word: seq<Byte>, rule: Rule): seq<Byte> {
    if rule.src == [] then Replacement(rule.dst) + word
    else ReplaceFirst(word, rule.src, Replacement(rule.dst))
  }

  /**
   * The interpreter's state: the word, every word it has been (the
   * "steps"), how often each rule pattern was applied, the replacements,
   * the rules examined, and whether a terminal rule has fired.
   */
  datatype Run = Run(word: seq<Byte>, steps: seq<seq<Byte>>, counts: map<seq<Byte>, nat>,
                     replacements: nat, iterations: nat, stop: bool)

  function Start(word: seq<Byte>): Run {
    Run(word, [word], map[], 0, 0, false)
  }

  /** Applying rule number `i`, found after examining `i + 1` rules. */
  function Applied(s: Run, rule: Rule, i: nat): (t: Run)
    ensures t.iterations == s.iterations + i + 1 && t.replacements == s.replacements + 1
    ensures t.steps == s.steps + [t.word] && t.stop == Terminal(rule.dst)
  {
    var w := Rewrite(s.word, rule);
    Run(w, s.steps + [w], Bump(s.counts, Pattern(rule)), s.replacements + 1, s.iterations + i + 1, Terminal(rule.dst))
  }

  /** One pass over the table: the first applicable rule is applied, or every rule is examined in vain. */
  function Pass(rules: seq<Rule>, s: Run): Run {
    match Scan(rules, s.word, 0)
    case None => s.(iterations := s.iterations + |rules|)
    case Some(i) => Applied(s, rules[i], i)
  }

  datatype Fault = LimitReached

  /**
   * The passes from a state, for a non-empty table: a pass that starts with
   * more than `max` rules examined raises; a pass that applies no rule, or
   * applies a terminal one, ends the run.
   */
  function RunFrom(rules: seq<Rule>, max: nat, s: Run): Result<Run, Fault>
    requires |rules| > 0
    decreases if s.iterations <= max then max + 1 - s.iterations else 0
  {
    if s.iterations > max then Err(LimitReached)
    else
      var t := Pass(rules, s);
      if Scan(rules, s.word, 0).None? || t.stop then Ok(t) else RunFrom(rules, max, t)
  }

  /** MarkovMachine.execute on a word: an empty table leaves the word as it is. */
  function ExecuteRules(rules: seq<Rule>, max: nat, word: seq<Byte>): Result<Run, Fault> {
    if |rules| == 0 then Ok(Start(word)) else RunFrom(rules, max, Start(word))
  }

  /** Every step after the first is the previous word rewritten by the first rule that applies to it. */
  predicate Follows(rules: seq<Rule>, steps: seq<seq<Byte>>) {
    forall k :: 0 <= k < |steps| - 1 ==>
      Scan(rules, steps[k], 0).Some? && steps[k + 1] == Rewrite(steps[k], rules[Scan(rules, steps[k], 0).value])
  }

  /** The bookkeeping the interpreter keeps: one step per replacement plus the first, the last being the word. */
  predicate Kept(rules: seq<Rule>, s: Run) {
    |s.steps| == s.replacements + 1 && s.steps[|s.steps| - 1] == s.word &&
    s.replacements <= s.iterations && Follows(rules, s.steps)
  }

  /** A pass keeps the bookkeeping. */
  lemma PassKept(rules: seq<Rule>, s: Run)
    requires |rules| > 0 && Kept(rules, s)
    ensures Kept(rules, Pass(rules, s))
    ensures s.steps <= Pass(rules, s).steps && Pass(rules, s).iterations > s.iterations
  {
    var t := Pass(rules, s);
    if Scan(rules, s.word, 0).Some? {
      var k := |s.steps| - 1;
      assert t.steps[k] == s.word;
      forall j | 0 <= j < |t.steps| - 1
        ensures Scan(rules, t.steps[j], 0).Some? &&
          t.steps[j + 1] == Rewrite(t.steps[j], rules[Scan(rules, t.steps[j], 0).value])
      {
        if j < k {
          assert t.steps[j] == s.steps[j] && t.steps[j + 1] == s.steps[j + 1];
        }
      }
    }
  }

  /**
   * A run that ends normally keeps the bookkeeping, extends the steps, and
   * ends either after a terminal rule or on a word no rule applies to; no
   * pass started beyond the limit.
   */
  lemma {:induction false} RunEnds(rules: seq<Rule>, max: nat, s: Run)
    requires |rules| > 0 && Kept(rules, s) && RunFrom(rules, max, s).Ok?
    ensures var t := RunFrom(rules, max, s).value;
      Kept(rules, t) && s.steps <= t.steps && s.iterations < t.iterations <= max + |rules| &&
      (t.stop || Scan(rules, t.word, 0).None?)
    decreases if s.iterations <= max then max + 1 - s.iterations else 0
  {
    var t := Pass(rules, s);
    PassKept(rules, s);
    if Scan(rules, s.word, 0).Some? && !t.stop {
      RunEnds(rules, max, t);
    }
  }

  /**
   * The result of execute: the steps start with the input word and end with
   * the result, there is one step per replacement after the first, each step
   * is the previous one rewritten by its first applicable rule, and the run
   * stopped on a terminal rule or on a word no rule applies to.
   */
  lemma ExecuteEnds(rules: seq<Rule>, max: nat, word: seq<Byte>)
    requires ExecuteRules(rules, max, word).Ok?
    ensures var t := ExecuteRules(rules, max, word).value;
      Kept(rules, t) && t.steps[0] == word && (t.stop || Scan(rules, t.word, 0).None?)
  {
    if |rules| > 0 {
      RunEnds(rules, max, Start(word));
    }
  }

  /**
   * After MarkovFile.merge the receiver's rules come first: the first rule
   * of the merged table that applies is the receiver's when one of them
   * applies, and otherwise the other table's, shifted by the receiver's length.
   */
  lemma {:induction false} ScanAppend(a: seq<Rule>, b: seq<Rule>, word: seq<Byte>, from: nat)
    requires from <= |a|
    ensures Scan(a + b, word, from) ==
      if Scan(a, word, from).Some? then Scan(a, word, from)
      else if Scan(b, word, 0).Some? then Some(|a| + Scan(b, word, 0).value)
      else None
    decreases |a| - from
  {
    if from < |a| {
      assert (a + b)[from] == a[from];
      ScanAppend(a, b, word, from + 1);
    } else {
      ScanShift(a, b, word, 0);
    }
  }

  lemma {:induction false} ScanShift(a: seq<Rule>, b: seq<Rule>, word: seq<Byte>, from: nat)
    requires from <= |b|
    ensures Scan(a + b, word, |a| + from) ==
      if Scan(b, word, from).Some? then Some(|a| + Scan(b, word, from).value) else None
    decreases |b| - from
  {
    if from < |b| {
      assert (a + b)[|a| + from] == b[from];
      ScanShift(a, b, word, from + 1);
    }
  }

  /** The trace execute returns next to the input and the result word. */
  datatype Trace = Trace(initial: seq<Byte>, word: seq<Byte>, counts: map<seq<Byte>, nat>,
                         steps: seq<seq<Byte>>, total: nat, replacements: nat, iterations: nat)

  function TraceOf(initial: seq<Byte>, total: nat, r: Result<Run, Fault>): Result<Trace, Fault> {
    match r
    case Err(f) => Err(f)
    case Ok(t) => Ok(Trace(initial, t.word, t.counts, t.steps, total, t.replacements, t.iterations))
  }

  // ---------------------------------------------------------------------
  // The machine
  // ---------------------------------------------------------------------

  /** One line of compile on the loop's variables. */
  method CompileStep(fields: seq<Field>, word: seq<Byte>, solution: seq<Byte>, inSolution: bool, line: SourceLine)
    returns (err: Option<CompileError>, fields': seq<Field>, word': seq<Byte>, solution': seq<Byte>, inSolution': bool)
    ensures CompileLine(Compiled(fields, word, solution, inSolution), line) ==
      if err.None? then Ok(Compiled(fields', word', solution', inSolution')) else Err(err.value)
  {
    err, fields', word', solution', inSolution' := None, fields, word, solution, inSolution;
    var text := Strip(line.text);
    var taken := true;
    match line.kind {
      case CommentedRule(src, dst, comment) =>
        inSolution' := false;
        fields' := fields + [[src, dst, comment]];
      case PlainRule(src, dst) =>
        inSolution' := false;
        fields' := fields + [[src, dst]];
      case WordLine(w) =>
        if word == [] {
          word', inSolution' := w, false;
        } else {
          taken := false;
        }
      case SolutionLine(t) =>
        if solution == [] {
          solution', inSolution' := t, true;
        } else {
          taken := false;
        }
      case OtherLine =>
        taken := false;
    }
    if !taken {
      if inSolution {
        solution' := solution + [LF] + text;
      } else {
        err := Some(UnrecognizedLine(text));
      }
    }
  }

  /** A replacement's marking dot: whether the rule is terminal, the text to write, and the counted pattern. */
  method MarkTerminal(src: seq<Byte>, dst: seq<Byte>) returns (stop: bool, dst': seq<Byte>, pattern: seq<Byte>)
    ensures stop == Terminal(dst) && dst' == Replacement(dst) && pattern == Pattern(Rule(src, dst, []))
  {
    stop, dst' := false, dst;
    if |dst| > 0 && dst[0] == DOT {
      stop := true;
      dst' := dst[1..];
      pattern := src + ARROW + [DOT] + dst';
    } else if |dst| > 0 && dst[|dst| - 1] == DOT {
      stop := true;
      dst' := dst[..|dst| - 1];
      pattern := src + ARROW + [DOT] + dst';
    } else {
      pattern := src + ARROW + dst;
    }
  }

  /** One pass of execute's inner loop over the table, stopping at the first rule that applies. */
  method ScanPass(fields: seq<Field>, word: seq<Byte>, steps: seq<seq<Byte>>, counts: map<seq<Byte>, nat>,
                  replacements: nat, iterations: nat)
    returns (failures: nat, stop: bool, word': seq<Byte>, steps': seq<seq<Byte>>, counts': map<seq<Byte>, nat>,
             replacements': nat, iterations': nat)
    requires forall i :: 0 <= i < |fields| ==> |fields[i]| <= 3
    ensures var found := Scan(Rules(fields), word, 0);
      failures == (if found.Some? then found.value else |fields|) &&
      Run(word', steps', counts', replacements', iterations', stop) ==
        Pass(Rules(fields), Run(word, steps, counts, replacements, iterations, false))
  {
    ghost var rules := Rules(fields);
    failures, stop := 0, false;
    word', steps', counts', replacements', iterations' := word, steps, counts, replacements, iterations;
    for i := 0 to |fields|
      invariant failures == i && iterations' == iterations + i && !stop
      invariant word' == word && steps' == steps && counts' == counts && replacements' == replacements
      invariant Scan(rules, word, 0) == Scan(rules, word, i)
    {
      var rule := RecognizeField(fields[i]).value;
      var src, dst := rule.src, rule.dst;
      if Find(word', src).Some? {
        var pattern;
        stop, dst, pattern := MarkTerminal(src, dst);
        replacements' := replacements' + 1;
        counts' := Bump(counts', pattern);
        if src == [] {
          word' := dst + word';
        } else {
          word' := ReplaceFirst(word', src, dst);
        }
        steps' := steps' + [word'];
        iterations' := iterations' + 1;
        return;
      }
      failures := failures + 1;
      iterations' := iterations' + 1;
    }
  }

  /** MarkovMachine: the table, the input word and the solution, with the file they came from or were linked into. */
  class MarkovMachine {
    const table: Table
    var word: seq<Byte>
    var solution: seq<Byte>
    const file: MarkovFile

    /** MarkovMachine(markov_file): the file's table, word and solution. */
    constructor FromFile(f: MarkovFile)
      ensures file == f && table == f.table && word == f.word && solution == f.solution
    {
      file := f;
      table := f.table;
      word := f.word;
      solution := f.solution;
    }

    /** A compiled machine and its link(): a file sharing its table. */
    constructor Linked(table: Table, word: seq<Byte>, solution: seq<Byte>)
      ensures this.table == table && this.word == word && this.solution == solution
      ensures fresh(file) && file.table == table && file.word == word && file.solution == solution
    {
      this.table := table;
      this.word := word;
      this.solution := solution;
      file := new MarkovFile(table, word, solution);
    }

    /** MarkovMachine(lines): compile, then link. */
    static method Compile(lines: seq<SourceLine>) returns (r: Result<MarkovMachine, CompileError>)
      ensures r.Ok? <==> CompileLines(lines).Ok?
      ensures r.Err? ==> r.error == CompileLines(lines).error
      ensures r.Ok? ==> var c := CompileLines(lines).value;
        fresh(r.value) && fresh(r.value.table) && r.value.table.Valid() &&
        r.value.table.fields == Corrected(c.fields).value &&
        r.value.word == c.word && r.value.solution == c.solution
    {
      var fields: seq<Field> := [];
      var word, solution, inSolution := [], [], false;
      for i := 0 to |lines|
        invariant CompileLines(lines[..i]) == Ok(Compiled(fields, word, solution, inSolution))
      {
        assert lines[..i + 1][..i] == lines[..i];
        var err;
        err, fields, word, solution, inSolution := CompileStep(fields, word, solution, inSolution, lines[i]);
        if err.Some? {
          CompileStopsAtError(lines, i + 1);
          return Err(err.value);
        }
      }
      assert lines[..|lines|] == lines;
      var table := Table.New(fields);
      if table.Err? {
        assert false;
        return Err(UnrecognizedLine([]));
      }
      var m := new MarkovMachine.Linked(table.value, word, solution);
      return Ok(m);
    }

    /**
     * MarkovMachine.execute: from the input word, or this machine's word when
     * none or an empty one is given, the result of ExecuteRules over the
     * table's rules; an empty table returns the word unchanged.
     */
    method Execute(input: Option<seq<Byte>>, max: nat) returns (r: Result<Trace, Fault>)
      requires table.Valid()
      ensures var initial := if input.Some? && input.value != [] then input.value else word;
        r == TraceOf(initial, |table.fields|, ExecuteRules(Rules(table.fields), max, initial))
    {
      var fields := table.fields;
      ghost var rules := Rules(fields);
      var replacements, iterations := 0, 0;
      var initial := if input.Some? && input.value != [] then input.value else word;
      var w := initial;
      var steps := [w];
      var counts := map[];
      var failures, stop := 0, false;
      ghost var result := ExecuteRules(rules, max, initial);
      while failures != |fields| && !stop
        invariant failures <= |fields|
        invariant failures != |fields| && !stop ==>
          |rules| > 0 && RunFrom(rules, max, Run(w, steps, counts, replacements, iterations, stop)) == result
        invariant !(failures != |fields| && !stop) ==> Ok(Run(w, steps, counts, replacements, iterations, stop)) == result
        decreases if iterations <= max then max + 1 - iterations else 0
      {
        if iterations > max {
          return Err(LimitReached);
        }
        failures, stop, w, steps, counts, replacements, iterations :=
          ScanPass(fields, w, steps, counts, replacements, iterations);
      }
      return Ok(Trace(initial, w, counts, steps, |fields|, replacements, iterations));
    }
  }
}
