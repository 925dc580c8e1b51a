/**
 * The transition table of the Turing machine (class `Table` of altturing.py):
 * a mapping from tape symbols to rows of per-state slots, with the blank
 * symbol `_` always present and the space character read as an alias of it.
 */
module TuringTable {
  import opened Wrappers
  import opened Text

  /** Head movement of a command: `<`, `.` and `>`. */
  datatype Move = Left | Stay | Right

  function MoveChar(m: Move): Byte {
    match m
    case Left => '<'
    case Stay => '.'
    case Right => '>'
  }

  predicate IsMoveChar(c: Byte) {
    c == '<' || c == '.' || c == '>'
  }

  /** The move a character names, if it names one (`action in "<>."` for one character). */
  function MoveOf(c: Byte): (r: Option<Move>)
    ensures r.Some? <==> IsMoveChar(c)
    ensures r.Some? ==> MoveChar(r.value) == c
  {
    if c == '<' then Some(Left) else if c == '.' then Some(Stay) else if c == '>' then Some(Right) else None
  }

  lemma MoveOfChar(m: Move)
    ensures MoveOf(MoveChar(m)) == Some(m)
  {
  }

  /** How far the head moves: -1, 0 or +1. */
  function Shift(m: Move): int {
    match m
    case Left => -1
    case Stay => 0
    case Right => 1
  }

  /**
   * One slot of a row: the source keeps either the empty string or a command
   * `<symbol><move><next state>`, where next state 0 halts.
   */
  datatype Slot = Empty | Cmd(sym: Byte, move: Move, next: nat)

  /** The blank symbol and its alias. */
  const BLANK: Byte := '_'
  const SPACE: Byte := ' '

  /**
   * The table's contents: the number of states, the row keys in insertion
   * order (a Python dict keeps that order, and the encoder writes rows in it)
   * and the row of every key.
   */
  datatype Grid = Grid(qCount: nat, order: seq<Byte>, rows: map<Byte, seq<Slot>>)

  predicate Distinct(s: seq<Byte>) {
    forall i, j :: 0 <= i < j < |s| ==> s[i] != s[j]
  }

  lemma SplitLast(s: seq<Byte>)
    requires |s| > 0
    ensures s == s[..|s| - 1] + [s[|s| - 1]]
  {
  }

  lemma SameRows(a: map<Byte, seq<Slot>>, b: map<Byte, seq<Slot>>)
    requires forall k :: k in a <==> k in b
    requires forall k :: k in a ==> a[k] == b[k]
    ensures a == b
  {
  }

  /** `order` lists every key of `rows` exactly once. */
  predicate Keyed(order: seq<Byte>, rows: map<Byte, seq<Slot>>) {
    Distinct(order) && (forall k :: k in rows <==> k in order)
  }

  /** The shape every Table has after its constructor: keyed, blank present, no space key. */
  predicate Normal(g: Grid) {
    Keyed(g.order, g.rows) && BLANK in g.rows && SPACE !in g.rows
  }

  /** A row of `q` empty slots. */
  function Empties(q: nat): (r: seq<Slot>)
    ensures |r| == q && forall i :: 0 <= i < q ==> r[i] == Empty
  {
    seq(q, i => Empty)
  }

  /** `order` without `k`. */
  function Without(order: seq<Byte>, k: Byte): (r: seq<Byte>)
    ensures forall x :: x in r <==> x in order && x != k
    ensures Distinct(order) ==> Distinct(r)
    ensures k !in order ==> r == order
  {
    if order == [] then []
    else if order[0] == k then Without(order[1..], k)
    else
      var rest := Without(order[1..], k);
      assert Distinct(order) ==> order[0] !in order[1..];
      [order[0]] + rest
  }

  /**
   * Table.__init__: adds a blank row of `q` empty slots when `_` is missing,
   * then, when a space row is present, moves it to the `_` key.
   */
  function Normalize(q: nat, order: seq<Byte>, rows: map<Byte, seq<Slot>>): (g: Grid)
    requires Keyed(order, rows)
    ensures Normal(g) && g.qCount == q
    ensures g.rows[BLANK] == (if SPACE in rows then rows[SPACE] else if BLANK in rows then rows[BLANK] else Empties(q))
    ensures forall k :: k != BLANK && k != SPACE ==> (k in g.rows <==> k in rows)
    ensures forall k :: k != BLANK && k != SPACE && k in rows ==> g.rows[k] == rows[k]
    ensures BLANK in rows && SPACE !in rows ==> g == Grid(q, order, rows)
  {
    var order1 := if BLANK in rows then order else order + [BLANK];
    var rows1 := if BLANK in rows then rows else rows[BLANK := Empties(q)];
    assert Keyed(order1, rows1);
    if SPACE in rows1 then Grid(q, Without(order1, SPACE), rows1[BLANK := rows1[SPACE]] - {SPACE})
    else Grid(q, order1, rows1)
  }

  /** What a lookup finds: no row or state (None), a stored slot, or a row too short (IndexError). */
  datatype Lookup = Undefined | Found(slot: Slot) | OutOfRow

  /** The row key a tape symbol is read under: any whitespace reads as `_`. */
  function KeyOf(symbol: Byte): (k: Byte)
    ensures k == (if IsSpace(symbol) then BLANK else symbol)
  {
    if IsSpace(symbol) then BLANK else symbol
  }

  /** Table.action: the slot for a symbol in a state. */
  function Action(g: Grid, symbol: Byte, state: nat): (r: Lookup)
    ensures r.Undefined? <==> !(0 < state <= g.qCount && KeyOf(symbol) in g.rows)
    ensures r.Found? <==> 0 < state <= g.qCount && KeyOf(symbol) in g.rows && state <= |g.rows[KeyOf(symbol)]|
    ensures r.Found? ==> r.slot == g.rows[KeyOf(symbol)][state - 1]
  {
    var key := KeyOf(symbol);
    if 0 < state <= g.qCount && key in g.rows then
      if state <= |g.rows[key]| then Found(g.rows[key][state - 1]) else OutOfRow
    else Undefined
  }

  /** The grid after slot `state` of row `symbol` holds `slot`; nothing else changes. */
  function SetSlot(g: Grid, symbol: Byte, state: nat, slot: Slot): (r: Grid)
    requires symbol in g.rows && 0 < state <= |g.rows[symbol]|
    ensures r.qCount == g.qCount && r.order == g.order && r.rows.Keys == g.rows.Keys
    ensures Normal(g) ==> Normal(r)
  {
    g.(rows := g.rows[symbol := g.rows[symbol][state - 1 := slot]])
  }

  /** A lookup after a write finds the written slot at the written place and the old slot elsewhere. */
  lemma {:induction false} ActionAfterSet(g: Grid, symbol: Byte, state: nat, slot: Slot, s: Byte, q: nat)
    requires symbol in g.rows && 0 < state <= |g.rows[symbol]| && state <= g.qCount
    ensures Action(SetSlot(g, symbol, state, slot), s, q) ==
      if KeyOf(s) == symbol && q == state then Found(slot) else Action(g, s, q)
  {
    var r := SetSlot(g, symbol, state, slot);
    if KeyOf(s) == symbol {
      assert |r.rows[symbol]| == |g.rows[symbol]|;
      if 0 < q <= |g.rows[symbol]| && q != state {
        assert r.rows[symbol][q - 1] == g.rows[symbol][q - 1];
      }
    } else if KeyOf(s) in g.rows {
      assert r.rows[KeyOf(s)] == g.rows[KeyOf(s)];
    }
  }


  // ---------------------------------------------------------------------
  // The text layout of a table (Table.to_bytes / Table.from_bytes)
  // ---------------------------------------------------------------------

  /** The text a slot is stored as: `""` or `<symbol><move><next state>`. */
  function SlotText(s: Slot): (t: seq<Byte>)
    ensures s.Empty? <==> t == []
  {
    match s
    case Empty => []
    case Cmd(c, m, n) => [c, MoveChar(m)] + NatText(n)
  }

  /**
   * Reads a slot back from its text. The source keeps any text it reads; the
   * model reads exactly the texts that SlotText writes and no others.
   */
  function ParseSlot(t: seq<Byte>): (r: Option<Slot>)
  {
    if t == [] then Some(Empty)
    else if |t| >= 3 && !IsMoveChar(t[0]) && IsMoveChar(t[1]) && AllDigits(t[2..]) then
      Some(Cmd(t[0], MoveOf(t[1]).value, DigitsValue(t[2..])))
    else None
  }

  /** A symbol that can stand in the text layout: not a separator and not a move character. */
  predicate Plain(c: Byte) {
    c != TAB && c != CR && !IsMoveChar(c)
  }

  lemma {:induction false} ParseSlotText(s: Slot)
    requires s.Cmd? ==> Plain(s.sym)
    ensures ParseSlot(SlotText(s)) == Some(s)
  {
    if s.Cmd? {
      var t := SlotText(s);
      assert t[2..] == NatText(s.next);
      NatTextValue(s.next);
      MoveOfChar(s.move);
    }
  }

  /** The label of state column `i`: `Q<i>`. */
  function ColumnLabel(i: nat): (t: seq<Byte>)
    ensures Free(t, CR)
  {
    var q: Byte := 'Q';
    [q] + NatText(i)
  }

  /** The header line: a tab, then `Q1` .. `Qq` separated by tabs. */
  function HeaderLine(q: nat): seq<Byte> {
    [TAB] + Join([TAB], seq(q, i requires 0 <= i => ColumnLabel(i + 1)))
  }

  /** One row line: the symbol, a tab, then the slot texts separated by tabs. */
  function RowLine(symbol: Byte, row: seq<Slot>): seq<Byte> {
    [symbol, TAB] + Join([TAB], seq(|row|, i requires 0 <= i < |row| => SlotText(row[i])))
  }

  /** One line per key, in order. */
  function RowLines(g: Grid): (ls: seq<seq<Byte>>)
    requires Keyed(g.order, g.rows)
    ensures |ls| == |g.order|
    ensures forall i :: 0 <= i < |g.order| ==> ls[i] == RowLine(g.order[i], g.rows[g.order[i]])
  {
    seq(|g.order|, i requires 0 <= i < |g.order| => RowLine(g.order[i], g.rows[g.order[i]]))
  }

  /** The lines of a table: the header, then one line per key in order. */
  function TableLines(g: Grid): (ls: seq<seq<Byte>>)
    requires Keyed(g.order, g.rows)
    ensures |ls| == |g.order| + 1
  {
    [HeaderLine(g.qCount)] + RowLines(g)
  }

  /**
   * The table text Table.to_bytes writes, every line ending in CR LF. The
   * source compares the str key with b"_", which never holds, so the blank
   * row is written under `_`.
   */
  function TableText(g: Grid): seq<Byte>
    requires Keyed(g.order, g.rows)
  {
    Terminated(TableLines(g))
  }

  /** The row lines a decoder reads: the lines after the header, without the last (`source[1:-1]`). */
  function Body(lines: seq<seq<Byte>>): seq<seq<Byte>> {
    if |lines| >= 2 then lines[1..|lines| - 1] else []
  }

  /** A row line the model can read: a one-character key and readable slot texts up to `q`. */
  predicate RowReadable(line: seq<Byte>, q: nat) {
    var parts := Split(line, [TAB]);
    |parts[0]| == 1 && forall i :: 1 <= i < |parts| && i <= q ==> ParseSlot(parts[i]).Some?
  }

  predicate LinesReadable(lines: seq<seq<Byte>>, q: nat) {
    forall i :: 0 <= i < |lines| ==> RowReadable(lines[i], q)
  }

  /** One row line read back: the key (a space key becomes `_`) and at most `q` slots. */
  function ParseRow(line: seq<Byte>, q: nat): (r: (Byte, seq<Slot>))
    requires RowReadable(line, q)
    ensures |r.1| <= q
  {
    var parts := Split(line, [TAB]);
    var n := if |parts| - 1 <= q then |parts| - 1 else q;
    (if parts[0][0] == SPACE then BLANK else parts[0][0],
     seq(n, i requires 0 <= i < n => ParseSlot(parts[i + 1]).value))
  }

  /** The dict the decoder fills, line by line: a repeated key keeps its place and takes the later row. */
  function InsertRows(lines: seq<seq<Byte>>, q: nat): (r: (seq<Byte>, map<Byte, seq<Slot>>))
    requires LinesReadable(lines, q)
    ensures forall k :: k in r.1 <==> k in r.0
    decreases |lines|
  {
    if lines == [] then ([], map[])
    else
      var (order, rows) := InsertRows(lines[..|lines| - 1], q);
      var (k, row) := ParseRow(lines[|lines| - 1], q);
      (if k in rows then order else order + [k], rows[k := row])
  }

  /** A key enters the order once, when it is first read. */
  lemma {:induction false} InsertRowsDistinct(lines: seq<seq<Byte>>, q: nat)
    requires LinesReadable(lines, q)
    ensures Keyed(InsertRows(lines, q).0, InsertRows(lines, q).1)
    decreases |lines|
  {
    if lines != [] {
      InsertRowsDistinct(lines[..|lines| - 1], q);
    }
  }

  /** Table.from_bytes on the CR LF-separated lines of a table text. */
  function DecodeTable(lines: seq<seq<Byte>>, q: nat): Grid
    requires LinesReadable(Body(lines), q)
  {
    var r := InsertRows(Body(lines), q);
    InsertRowsDistinct(Body(lines), q);
    Normalize(q, r.0, r.1)
  }

  /** Every key and every written symbol can stand in the text layout. */
  predicate PlainGrid(g: Grid) {
    (forall k :: k in g.rows ==> Plain(k)) &&
    (forall k, i :: k in g.rows && 0 <= i < |g.rows[k]| && g.rows[k][i].Cmd? ==> Plain(g.rows[k][i].sym))
  }

  /**
   * A row survives the text layout when it has at most `q` slots and, if `q`
   * is positive, at least one: an empty row is written as `k<TAB>` and read
   * back as one empty slot.
   */
  predicate RowsFit(g: Grid) {
    forall k :: k in g.rows ==> |g.rows[k]| <= g.qCount && (g.qCount > 0 ==> |g.rows[k]| > 0)
  }

  lemma {:induction false} ParseRowLine(k: Byte, row: seq<Slot>, q: nat)
    requires Plain(k) && k != SPACE
    requires forall i :: 0 <= i < |row| && row[i].Cmd? ==> Plain(row[i].sym)
    requires |row| <= q && (q > 0 ==> |row| > 0)
    ensures RowReadable(RowLine(k, row), q) && ParseRow(RowLine(k, row), q) == (k, row)
  {
    var texts := seq(|row|, i requires 0 <= i < |row| => SlotText(row[i]));
    var parts := [[k]] + texts;
    forall i | 0 <= i < |texts| ensures Free(texts[i], TAB) {
      if row[i].Cmd? {
        assert texts[i] == [row[i].sym, MoveChar(row[i].move)] + NatText(row[i].next);
      }
    }
    if |row| == 0 {
      assert q == 0;
      assert RowLine(k, row) == [k, TAB];
      assert RowLine(k, row) == Join([TAB], [[k], []]);
      SplitJoin([[k], []], [TAB]);
    } else {
      assert RowLine(k, row) == Join([TAB], parts) by {
        assert parts[1..] == texts;
      }
      SplitJoin(parts, [TAB]);
      forall i | 0 <= i < |row| ensures ParseSlot(texts[i]) == Some(row[i]) {
        ParseSlotText(row[i]);
      }
    }
    var r := ParseRow(RowLine(k, row), q);
    assert r.1 == row;
  }

  lemma HeaderFree(q: nat)
    ensures Free(HeaderLine(q), CR)
  {
    var items := seq(q, i requires 0 <= i => ColumnLabel(i + 1));
    JoinFree([TAB], items, CR);
  }

  lemma RowLineFree(k: Byte, row: seq<Slot>)
    requires k != CR
    requires forall i :: 0 <= i < |row| && row[i].Cmd? ==> Plain(row[i].sym)
    ensures Free(RowLine(k, row), CR)
  {
    var texts := seq(|row|, i requires 0 <= i < |row| => SlotText(row[i]));
    forall i | 0 <= i < |texts| ensures Free(texts[i], CR) {
      if row[i].Cmd? {
        assert texts[i] == [row[i].sym, MoveChar(row[i].move)] + NatText(row[i].next);
      }
    }
    JoinFree([TAB], texts, CR);
  }

  lemma RowLinesReadable(g: Grid)
    requires Normal(g) && PlainGrid(g) && RowsFit(g)
    ensures LinesReadable(RowLines(g), g.qCount)
    ensures forall i :: 0 <= i < |g.order| ==> ParseRow(RowLines(g)[i], g.qCount) == (g.order[i], g.rows[g.order[i]])
  {
    forall i | 0 <= i < |g.order|
      ensures RowReadable(RowLines(g)[i], g.qCount)
      ensures ParseRow(RowLines(g)[i], g.qCount) == (g.order[i], g.rows[g.order[i]])
    {
      ParseRowLine(g.order[i], g.rows[g.order[i]], g.qCount);
    }
  }

  /** The table text splits into the header, the row lines and an empty last part. */
  lemma SplitTableText(g: Grid)
    requires Normal(g) && PlainGrid(g)
    ensures Split(TableText(g), CRLF) == TableLines(g) + [[]]
    ensures Body(Split(TableText(g), CRLF)) == RowLines(g)
  {
    var lines := TableLines(g);
    HeaderFree(g.qCount);
    forall i | 0 <= i < |lines| ensures Free(lines[i], CR) {
      if i > 0 { RowLineFree(g.order[i - 1], g.rows[g.order[i - 1]]); }
    }
    SplitTerminated(lines);
    assert Body(lines + [[]]) == RowLines(g);
  }

  /** Reading lines that parse to distinct keys rebuilds the keys in order and their rows. */
  lemma {:induction false} InsertParsed(lines: seq<seq<Byte>>, q: nat, keys: seq<Byte>, rows: map<Byte, seq<Slot>>)
    requires |lines| == |keys| && Distinct(keys)
    requires forall i :: 0 <= i < |keys| ==> keys[i] in rows
    requires LinesReadable(lines, q)
    requires forall i :: 0 <= i < |lines| ==> ParseRow(lines[i], q) == (keys[i], rows[keys[i]])
    ensures InsertRows(lines, q).0 == keys
    ensures forall k :: k in InsertRows(lines, q).1 <==> k in keys
    ensures forall k :: k in InsertRows(lines, q).1 ==> InsertRows(lines, q).1[k] == rows[k]
    decreases |lines|
  {
    if lines != [] {
      var n := |lines|;
      var pre, front := lines[..n - 1], keys[..n - 1];
      assert forall i :: 0 <= i < |pre| ==> pre[i] == lines[i] && front[i] == keys[i];
      InsertParsed(pre, q, front, rows);
      var k := keys[n - 1];
      assert ParseRow(lines[n - 1], q) == (k, rows[k]);
      assert k !in front;
      SplitLast(keys);
    }
  }

  /** Reading all row lines back gives the keys in order and every row. */
  lemma InsertAllRowLines(g: Grid)
    requires Normal(g) && PlainGrid(g) && RowsFit(g)
    ensures LinesReadable(RowLines(g), g.qCount)
    ensures InsertRows(RowLines(g), g.qCount) == (g.order, g.rows)
  {
    RowLinesReadable(g);
    InsertParsed(RowLines(g), g.qCount, g.order, g.rows);
    SameRows(InsertRows(RowLines(g), g.qCount).1, g.rows);
  }

  /** Table.from_bytes undoes Table.to_bytes on a table whose keys and rows fit the layout. */
  lemma TableRoundTrip(g: Grid)
    requires Normal(g) && PlainGrid(g) && RowsFit(g)
    ensures LinesReadable(Body(Split(TableText(g), CRLF)), g.qCount)
    ensures DecodeTable(Split(TableText(g), CRLF), g.qCount) == g
  {
    SplitTableText(g);
    InsertAllRowLines(g);
  }

  /** One more line of a table text: the header or the row of the `n`-th key. */
  lemma TerminatedPrefix(lines: seq<seq<Byte>>, n: nat)
    requires n < |lines|
    ensures Terminated(lines[..n + 1]) == Terminated(lines[..n]) + lines[n] + CRLF
  {
    assert lines[..n + 1] == lines[..n] + [lines[n]];
    TerminatedAppend(lines[..n], lines[n]);
  }

  /** The mutable table: its rows are what set_action and merge update in place. */
  class Table {
    const qCount: nat
    var order: seq<Byte>
    var rows: map<Byte, seq<Slot>>

    function Value(): Grid
      reads this
    {
      Grid(qCount, order, rows)
    }

    ghost predicate Valid()
      reads this
    {
      Normal(Value())
    }

    /** Table(fields, q_count) for a dict given as its keys in order and its rows. */
    constructor (fieldOrder: seq<Byte>, fields: map<Byte, seq<Slot>>, q: nat)
      requires Keyed(fieldOrder, fields)
      ensures Value() == Normalize(q, fieldOrder, fields)
      ensures Valid()
    {
      var g := Normalize(q, fieldOrder, fields);
      qCount := q;
      order := g.order;
      rows := g.rows;
    }

    /**
     * Table.set_action: writes `<newSymbol><action><newState>` into slot
     * `state` of row `symbol` when the state is in range, both symbols have
     * rows and the action is a move character; the new state is not checked.
     */
    method SetAction(symbol: Byte, state: nat, newSymbol: Byte, action: Byte, newState: nat) returns (ok: bool)
      requires Valid()
      requires symbol in rows && 0 < state <= qCount ==> state <= |rows[symbol]|
      modifies this
      ensures Valid()
      ensures ok <==> 0 < state <= qCount && symbol in old(rows) && newSymbol in old(rows) && IsMoveChar(action)
      ensures ok ==> Value() == SetSlot(old(Value()), symbol, state, Cmd(newSymbol, MoveOf(action).value, newState))
      ensures !ok ==> Value() == old(Value())
    {
      if 0 < state <= qCount && symbol in rows && newSymbol in rows && IsMoveChar(action) {
        rows := rows[symbol := rows[symbol][state - 1 := Cmd(newSymbol, MoveOf(action).value, newState)]];
        ok := true;
      } else {
        ok := false;
      }
    }

    /** Table.to_bytes: the header line, then one line per row, each ended by CR LF; and its length. */
    method ToBytes() returns (buf: seq<Byte>, length: nat)
      requires Keyed(order, rows)
      ensures buf == TableText(Value()) && length == |buf|
    {
      ghost var lines := TableLines(Value());
      buf := HeaderLine(qCount) + CRLF;
      TerminatedPrefix(lines, 0);
      for i := 0 to |order|
        invariant buf == Terminated(lines[..i + 1])
      {
        var k := order[i];
        buf := buf + RowLine(k, rows[k]) + CRLF;
        TerminatedPrefix(lines, i + 1);
      }
      assert lines[..|order| + 1] == lines;
      length := |buf|;
    }

    /** Table.from_bytes: a table from the CR LF-separated lines of a table text. */
    static method FromBytes(source: seq<seq<Byte>>, q: nat) returns (t: Table)
      requires LinesReadable(Body(source), q)
      ensures fresh(t) && t.Valid() && t.Value() == DecodeTable(source, q)
    {
      var lines := Body(source);
      var order: seq<Byte> := [];
      var fields: map<Byte, seq<Slot>> := map[];
      for i := 0 to |lines|
        invariant (order, fields) == InsertRows(lines[..i], q)
      {
        assert lines[..i + 1][..i] == lines[..i];
        var (k, row) := ParseRow(lines[i], q);
        if k !in fields {
          order := order + [k];
        }
        fields := fields[k := row];
      }
      assert lines[..|lines|] == lines;
      InsertRowsDistinct(lines, q);
      t := new Table(order, fields, q);
    }
  }
}
