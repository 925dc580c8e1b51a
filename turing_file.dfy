/**
 * The `.tur` file of the Turing machine (class `TuringFile` of altturing.py):
 * its binary layout and the sequential composition of two machines.
 */
module TuringFileFormat {
  import opened Wrappers
  import opened Text
  import opened TuringTable
  import opened TuringTape

  /** The only way the encoder fails: a value that int.to_bytes(4) cannot hold (OverflowError). */
  datatype CodecError = Overflow

  const TWO_31: nat := 0x8000_0000

  // ---------------------------------------------------------------------
  // Signed tape bounds in unsigned 32-bit fields
  // ---------------------------------------------------------------------

  /**
   * The field written for a tape bound: a negative value is stored as
   * `2^32 + v`; a value that then falls outside [0, 2^32) overflows.
   */
  function SignedField(v: int): (r: Result<nat, CodecError>)
    ensures r.Ok? <==> -0x1_0000_0000 <= v < TWO_32
    ensures r.Ok? ==> r.value < TWO_32 && r.value % TWO_32 == v % TWO_32
  {
    var s := if v < 0 then TWO_32 + v else v;
    if 0 <= s < TWO_32 then Ok(s) else Err(Overflow)
  }

  /**
   * The bound read back from a field: a field `s` with `2^32 - s < 2^31`,
   * that is `s > 2^31`, stands for `s - 2^32`.
   */
  function SignedValue(s: nat): (v: int)
    ensures s < TWO_32 ==> -0x8000_0000 < v <= TWO_31
    ensures v % TWO_32 == s % TWO_32
  {
    if TWO_32 - s < TWO_31 then s - TWO_32 else s
  }

  /** A bound survives the file exactly when it lies in (-2^31, 2^31]; in particular -2^31 does not. */
  lemma SignedRoundTrip(v: int)
    requires -0x1_0000_0000 <= v < TWO_32
    ensures SignedValue(SignedField(v).value) == v <==> -0x8000_0000 < v <= TWO_31
  {
  }

  // ---------------------------------------------------------------------
  // The byte layout of a file
  // ---------------------------------------------------------------------

  /** What a file holds: the table, the tape, the comment and the solution text. */
  datatype FileValue = FileValue(grid: Grid, tape: TapeValue, comment: seq<Byte>, solution: seq<Byte>)

  /**
   * TuringFile.to_bytes: the solution with its length, `q_count + 1`, the
   * table text with its length, the comment with its length, the three tape
   * bounds and the tape text.
   */
  function EncodeFile(f: FileValue): (r: Result<seq<Byte>, CodecError>)
    requires Keyed(f.grid.order, f.grid.rows)
    ensures r.Ok? <==>
      |f.solution| < TWO_32 && f.grid.qCount + 1 < TWO_32 && |TableText(f.grid)| < TWO_32 &&
      |f.comment| < TWO_32 && SignedField(f.tape.begin).Ok? && SignedField(f.tape.end).Ok? &&
      SignedField(f.tape.pointer).Ok?
  {
    var table := TableText(f.grid);
    var b, e, p := SignedField(f.tape.begin), SignedField(f.tape.end), SignedField(f.tape.pointer);
    if |f.solution| >= TWO_32 || f.grid.qCount + 1 >= TWO_32 || |table| >= TWO_32 || |f.comment| >= TWO_32 then
      Err(Overflow)
    else if b.Err? || e.Err? || p.Err? then
      Err(Overflow)
    else
      Ok(Prefixed(f.solution) + U32(f.grid.qCount + 1) + Prefixed(table) + Prefixed(f.comment) +
         U32(b.value) + U32(e.value) + U32(p.value) + f.tape.content)
  }

  lemma EncodedBytes(f: FileValue)
    requires Keyed(f.grid.order, f.grid.rows)
    requires EncodeFile(f).Ok?
    ensures EncodeFile(f).value == Prefixed(f.solution) + U32(f.grid.qCount + 1) + Prefixed(TableText(f.grid)) +
      Prefixed(f.comment) + U32(SignedField(f.tape.begin).value) + U32(SignedField(f.tape.end).value) +
      U32(SignedField(f.tape.pointer).value) + f.tape.content
  {
  }

  /** The fields of a file as TuringFile.from_bytes reads them, before any interpretation. */
  datatype RawFile = RawFile(solution: seq<Byte>, qField: nat, table: seq<Byte>, comment: seq<Byte>,
                             begin: nat, end: nat, pointer: nat, tape: seq<Byte>)

  /** The reads of TuringFile.from_bytes in order; a short stream gives short fields. */
  function ReadFile(b: seq<Byte>): RawFile {
    var (solution, r1) := ReadPrefixed(b);
    var (qField, r2) := ReadU32(r1);
    var (table, r3) := ReadPrefixed(r2);
    var (comment, r4) := ReadPrefixed(r3);
    var (begin, r5) := ReadU32(r4);
    var (end, r6) := ReadU32(r5);
    var (pointer, tape) := ReadU32(r6);
    RawFile(solution, qField, table, comment, begin, end, pointer, tape)
  }

  /** A file the model can read: a positive state-count field and readable row lines. */
  predicate WellFormed(b: seq<Byte>) {
    var raw := ReadFile(b);
    raw.qField >= 1 && LinesReadable(Body(Split(raw.table, CRLF)), raw.qField - 1)
  }

  /** TuringFile.from_bytes on a byte string. */
  function DecodeFile(b: seq<Byte>): (f: FileValue)
    requires WellFormed(b)
    ensures Normal(f.grid)
  {
    var raw := ReadFile(b);
    FileValue(DecodeTable(Split(raw.table, CRLF), raw.qField - 1),
              TapeValue(SignedValue(raw.begin), SignedValue(raw.end), SignedValue(raw.pointer), raw.tape),
              raw.comment, raw.solution)
  }

  /** Reading back what the encoder wrote gives every field as it was written. */
  lemma ReadEncoded(sol: seq<Byte>, qf: nat, table: seq<Byte>, comment: seq<Byte>, b: nat, e: nat, p: nat, tape: seq<Byte>)
    requires |sol| < TWO_32 && qf < TWO_32 && |table| < TWO_32 && |comment| < TWO_32
    requires b < TWO_32 && e < TWO_32 && p < TWO_32
    ensures ReadFile(Prefixed(sol) + U32(qf) + Prefixed(table) + Prefixed(comment) + U32(b) + U32(e) + U32(p) + tape)
      == RawFile(sol, qf, table, comment, b, e, p, tape)
  {
    var r6 := U32(p) + tape;
    var r5 := U32(e) + r6;
    var r4 := U32(b) + r5;
    var r3 := Prefixed(comment) + r4;
    var r2 := Prefixed(table) + r3;
    var r1 := U32(qf) + r2;
    assert Prefixed(sol) + U32(qf) + Prefixed(table) + Prefixed(comment) + U32(b) + U32(e) + U32(p) + tape
      == Prefixed(sol) + r1;
    ReadPrefixedWritten(sol, r1);
    ReadU32Written(qf, r2);
    ReadPrefixedWritten(table, r3);
    ReadPrefixedWritten(comment, r4);
    ReadU32Written(b, r5);
    ReadU32Written(e, r6);
    ReadU32Written(p, tape);
  }

  /** The three tape bounds survive their fields. */
  lemma BoundsRoundTrip(t: TapeValue)
    requires -0x8000_0000 < t.begin <= TWO_31 && -0x8000_0000 < t.end <= TWO_31
    requires -0x8000_0000 < t.pointer <= TWO_31
    ensures SignedValue(SignedField(t.begin).value) == t.begin
    ensures SignedValue(SignedField(t.end).value) == t.end
    ensures SignedValue(SignedField(t.pointer).value) == t.pointer
  {
    SignedRoundTrip(t.begin);
    SignedRoundTrip(t.end);
    SignedRoundTrip(t.pointer);
  }

  /**
   * TuringFile.from_bytes undoes TuringFile.to_bytes: the solution, the
   * comment, the state count, every row, the tape text and the three bounds
   * come back, for a table whose symbols fit the text layout and bounds in
   * (-2^31, 2^31].
   */
  lemma FileRoundTrip(f: FileValue)
    requires Normal(f.grid) && PlainGrid(f.grid) && RowsFit(f.grid)
    requires EncodeFile(f).Ok?
    requires -0x8000_0000 < f.tape.begin <= TWO_31 && -0x8000_0000 < f.tape.end <= TWO_31
    requires -0x8000_0000 < f.tape.pointer <= TWO_31
    ensures WellFormed(EncodeFile(f).value)
    ensures DecodeFile(EncodeFile(f).value) == f
  {
    var bytes := EncodeFile(f).value;
    var raw := EncodedFields(f);
    TableRoundTrip(f.grid);
    assert WellFormed(bytes);
    BoundsRoundTrip(f.tape);
  }

  /** The fields read from an encoded file are the ones written. */
  lemma EncodedFields(f: FileValue) returns (raw: RawFile)
    requires Keyed(f.grid.order, f.grid.rows)
    requires EncodeFile(f).Ok?
    ensures raw == ReadFile(EncodeFile(f).value)
    ensures raw == RawFile(f.solution, f.grid.qCount + 1, TableText(f.grid), f.comment,
      SignedField(f.tape.begin).value, SignedField(f.tape.end).value, SignedField(f.tape.pointer).value, f.tape.content)
  {
    var b, e, p := SignedField(f.tape.begin).value, SignedField(f.tape.end).value, SignedField(f.tape.pointer).value;
    var bytes := EncodeFile(f).value;
    EncodedBytes(f);
    ReadEncoded(f.solution, f.grid.qCount + 1, TableText(f.grid), f.comment, b, e, p, f.tape.content);
    raw := ReadFile(bytes);
  }

  // ---------------------------------------------------------------------
  // Sequential composition (TuringFile.merge and TuringFile._recount)
  // ---------------------------------------------------------------------

  /**
   * TuringFile._split_commands: the first of `>`, `.` and `<` that occurs in
   * the command text, and the text split at it; None where the source raises
   * ValueError.
   */
  function SplitCommands(t: seq<Byte>): (r: Option<(Byte, seq<seq<Byte>>)>)
    ensures r.None? <==> forall i :: 0 <= i < |t| ==> !IsMoveChar(t[i])
    ensures r.Some? ==> IsMoveChar(r.value.0) && r.value.0 in t && r.value.1 == Split(t, [r.value.0])
    ensures r.Some? && r.value.0 != '>' ==> '>' !in t
    ensures r.Some? && r.value.0 == '<' ==> '.' !in t
  {
    var gt: Byte := '>';
    var dot: Byte := '.';
    var lt: Byte := '<';
    if gt in t then Some((gt, Split(t, [gt])))
    else if dot in t then Some((dot, Split(t, [dot])))
    else if lt in t then Some((lt, Split(t, [lt])))
    else None
  }

  /**
   * On the text of a command whose symbol is not a move character, the
   * split finds the move character and gives the symbol and the state text;
   * joining them back with another state gives the text of the command with
   * that state. This is how merge and _recount rewrite a slot.
   */
  lemma SlotRewrite(s: Slot, n: nat)
    requires s.Cmd? && !IsMoveChar(s.sym)
    ensures SplitCommands(SlotText(s)) == Some((MoveChar(s.move), [[s.sym], NatText(s.next)]))
    ensures DigitsValue(NatText(s.next)) == s.next
    ensures Join([MoveChar(s.move)], [[s.sym], NatText(n)]) == SlotText(s.(next := n))
  {
    var c := MoveChar(s.move);
    var parts := [[s.sym], NatText(s.next)];
    assert SlotText(s) == Join([c], parts);
    forall i | 0 <= i < |parts| ensures Free(parts[i], c) {
      if i == 1 {
        forall j | 0 <= j < |parts[1]| ensures parts[1][j] != c {
          assert IsDigit(parts[1][j]);
        }
      }
    }
    SplitJoin(parts, [c]);
    var t := SlotText(s);
    assert t[1] == c;
    forall j | 0 <= j < |t| && j != 1 ensures !IsMoveChar(t[j]) {
      if j > 1 { assert t[j] == NatText(s.next)[j - 2]; assert IsDigit(t[j]); }
    }
    NatTextValue(s.next);
    assert Join([c], [[s.sym], NatText(n)]) == [s.sym] + [c] + NatText(n);
  }

  /** A slot of the first machine after merge: a halt (next state 0) continues in state `nextQ`. */
  function RedirectSlot(s: Slot, nextQ: nat): Slot {
    if s.Cmd? && s.next == 0 then s.(next := nextQ) else s
  }

  /** A slot of the second machine after _recount(q): a next state `n != 0` becomes `n - 1 + q`. */
  function RecountSlot(s: Slot, q: nat): Slot
    requires q >= 1
  {
    if s.Cmd? && s.next != 0 then s.(next := s.next - 1 + q) else s
  }

  function RedirectRow(row: seq<Slot>, nextQ: nat): (r: seq<Slot>)
    ensures |r| == |row| && forall i :: 0 <= i < |row| ==> r[i] == RedirectSlot(row[i], nextQ)
  {
    seq(|row|, i requires 0 <= i < |row| => RedirectSlot(row[i], nextQ))
  }

  function RecountRow(row: seq<Slot>, q: nat): (r: seq<Slot>)
    requires q >= 1
    ensures |r| == |row| && forall i :: 0 <= i < |row| ==> r[i] == RecountSlot(row[i], q)
  {
    seq(|row|, i requires 0 <= i < |row| => RecountSlot(row[i], q))
  }

  /** The first table with every halt redirected, as the first loop of merge leaves it. */
  function RedirectGrid(g: Grid): (r: Grid)
    ensures r.qCount == g.qCount && r.order == g.order && r.rows.Keys == g.rows.Keys
  {
    g.(rows := map k | k in g.rows :: RedirectRow(g.rows[k], g.qCount + 1))
  }

  /** The keys of `order` that are not keys of `rows`, in order: the rows merge adds at the end. */
  function Appended(rows: map<Byte, seq<Slot>>, order: seq<Byte>): (r: seq<Byte>)
    ensures forall k :: k in r <==> k in order && k !in rows
    decreases |order|
  {
    if order == [] then []
    else
      var rest := Appended(rows, order[..|order| - 1]);
      var k := order[|order| - 1];
      if k in rows then rest else rest + [k]
  }

  lemma {:induction false} AppendedDistinct(rows: map<Byte, seq<Slot>>, order: seq<Byte>)
    requires Distinct(order)
    ensures Distinct(Appended(rows, order))
    decreases |order|
  {
    if order != [] {
      AppendedDistinct(rows, order[..|order| - 1]);
      DistinctLast(order, |order|);
    }
  }

  lemma DistinctLast(s: seq<Byte>, n: nat)
    requires Distinct(s) && 0 < n <= |s|
    ensures Distinct(s[..n]) && s[n - 1] !in s[..n - 1]
  {
  }


  /**
   * The merged row of key `k`: the first machine's slots redirected, then
   * the second machine's slots recounted; a key only the second machine has
   * starts with `Qa` empty slots, a key only the first has is not padded.
   */
  function MergeRow(a: Grid, b: Grid, k: Byte): seq<Slot>
    requires k in a.rows || k in b.rows
  {
    var nextQ := a.qCount + 1;
    if k in a.rows then RedirectRow(a.rows[k], nextQ) + (if k in b.rows then RecountRow(b.rows[k], nextQ) else [])
    else Empties(a.qCount) + RecountRow(b.rows[k], nextQ)
  }

  /** The rows merge builds, for every key of either table. */
  function MergeRows(a: Grid, b: Grid): map<Byte, seq<Slot>> {
    map k | k in a.rows.Keys + b.rows.Keys :: MergeRow(a, b, k)
  }

  /** The table merge builds: `Qa + Qb` states, the first table's keys and then the new keys of the second. */
  function MergeGrid(a: Grid, b: Grid): (r: Grid)
    requires Normal(a) && Normal(b)
    ensures Normal(r)
  {
    var order := a.order + Appended(a.rows, b.order);
    var rows := MergeRows(a, b);
    AppendedDistinct(a.rows, b.order);
    assert Distinct(order) by {
      forall i, j | 0 <= i < j < |order| ensures order[i] != order[j] {
        if j >= |a.order| && i < |a.order| {
          assert order[j] in Appended(a.rows, b.order);
        }
      }
    }
    Grid(a.qCount + b.qCount, order, rows)
  }

  lemma MergeRowOf(a: Grid, b: Grid, k: Byte)
    requires Normal(a) && Normal(b) && (k in a.rows || k in b.rows)
    ensures k in MergeGrid(a, b).rows && MergeGrid(a, b).rows[k] == MergeRow(a, b, k)
  {
  }

  /** Merge has `Qa + Qb` states, every key of either table, and the first table's keys first. */
  lemma MergeShape(a: Grid, b: Grid)
    requires Normal(a) && Normal(b)
    ensures MergeGrid(a, b).qCount == a.qCount + b.qCount
    ensures forall k :: k in MergeGrid(a, b).rows <==> k in a.rows || k in b.rows
    ensures MergeGrid(a, b).order[..|a.order|] == a.order
  {
  }

  /**
   * The first machine's slots keep their place: an empty slot stays empty,
   * a halt continues in state `Qa + 1` and any other command is unchanged.
   */
  lemma MergeFirstSlots(a: Grid, b: Grid, k: Byte, i: nat)
    requires Normal(a) && Normal(b) && k in a.rows && i < |a.rows[k]|
    ensures i < |MergeGrid(a, b).rows[k]|
    ensures var s, r := a.rows[k][i], MergeGrid(a, b).rows[k][i];
      (s.Empty? ==> r.Empty?) &&
      (s.Cmd? ==> r == Cmd(s.sym, s.move, if s.next == 0 then a.qCount + 1 else s.next))
  {
  }

  /**
   * The second machine's slots follow the first machine's slots of the same
   * key, or `Qa` empty slots for a new key: an empty slot stays empty, a halt
   * stays a halt and state `n` becomes `n + Qa`.
   */
  lemma MergeSecondSlots(a: Grid, b: Grid, k: Byte, i: nat)
    requires Normal(a) && Normal(b) && k in b.rows && i < |b.rows[k]|
    ensures var off := if k in a.rows then |a.rows[k]| else a.qCount;
      off + i < |MergeGrid(a, b).rows[k]| &&
      var s, r := b.rows[k][i], MergeGrid(a, b).rows[k][off + i];
      (s.Empty? ==> r.Empty?) &&
      (s.Cmd? ==> r == Cmd(s.sym, s.move, if s.next == 0 then 0 else s.next + a.qCount))
  {
    MergeRowOf(a, b, k);
    MergeRowSecond(a, b, k, i);
  }

  lemma MergeRowSecond(a: Grid, b: Grid, k: Byte, i: nat)
    requires k in b.rows && i < |b.rows[k]|
    ensures var off := if k in a.rows then |a.rows[k]| else a.qCount;
      off + i < |MergeRow(a, b, k)| && MergeRow(a, b, k)[off + i] == RecountSlot(b.rows[k][i], a.qCount + 1)
  {
    var first := if k in a.rows then RedirectRow(a.rows[k], a.qCount + 1) else Empties(a.qCount);
    var second := RecountRow(b.rows[k], a.qCount + 1);
    assert MergeRow(a, b, k) == first + second;
    assert MergeRow(a, b, k)[|first| + i] == second[i];
  }

  /** A key only the second machine has gets `Qa` empty slots before its own. */
  lemma MergeSecondPadding(a: Grid, b: Grid, k: Byte)
    requires Normal(a) && Normal(b) && k in b.rows && k !in a.rows
    ensures |MergeGrid(a, b).rows[k]| == a.qCount + |b.rows[k]|
    ensures forall i :: 0 <= i < a.qCount ==> MergeGrid(a, b).rows[k][i] == Empty
  {
    MergeRowOf(a, b, k);
    assert MergeRow(a, b, k) == Empties(a.qCount) + RecountRow(b.rows[k], a.qCount + 1);
  }

  /** A key only the first machine has keeps exactly its own slots: merge does not pad it. */
  lemma MergeFirstOnly(a: Grid, b: Grid, k: Byte)
    requires Normal(a) && Normal(b) && k in a.rows && k !in b.rows
    ensures |MergeGrid(a, b).rows[k]| == |a.rows[k]|
  {
  }

  /** Every row of the table has one slot per state, as compile builds it. */
  predicate Full(g: Grid) {
    forall k :: k in g.rows ==> |g.rows[k]| == g.qCount
  }

  /**
   * For full tables, in states 1..Qa the merged machine acts as the first
   * one with halts sent to state Qa + 1, and a symbol only the second table
   * knows finds an empty slot.
   */
  lemma MergeActsFirst(a: Grid, b: Grid, s: Byte, j: nat)
    requires Normal(a) && Normal(b) && Full(a) && 0 < j <= a.qCount
    ensures KeyOf(s) in a.rows ==> Action(MergeGrid(a, b), s, j) == Found(RedirectSlot(a.rows[KeyOf(s)][j - 1], a.qCount + 1))
    ensures KeyOf(s) !in a.rows && KeyOf(s) in b.rows ==> Action(MergeGrid(a, b), s, j) == Found(Empty)
    ensures KeyOf(s) !in a.rows && KeyOf(s) !in b.rows ==> Action(MergeGrid(a, b), s, j) == Undefined
  {
    var m := MergeGrid(a, b);
    var k := KeyOf(s);
    if k in a.rows {
      var row := MergeRow(a, b, k);
      assert m.rows[k] == row;
      assert row[j - 1] == RedirectRow(a.rows[k], a.qCount + 1)[j - 1];
    } else if k in b.rows {
      var row := MergeRow(a, b, k);
      assert m.rows[k] == row;
      assert row[j - 1] == Empties(a.qCount)[j - 1];
    }
  }

  /**
   * For full tables, in states Qa+1..Qa+Qb the merged machine acts as the
   * second one in states 1..Qb, renumbered; a symbol only the first table
   * knows has no slot there (the source raises IndexError).
   */
  lemma MergeActsSecond(a: Grid, b: Grid, s: Byte, j: nat)
    requires Normal(a) && Normal(b) && Full(a) && 0 < j <= b.qCount
    ensures KeyOf(s) in b.rows && j <= |b.rows[KeyOf(s)]| ==>
      Action(MergeGrid(a, b), s, a.qCount + j) == Found(RecountSlot(b.rows[KeyOf(s)][j - 1], a.qCount + 1))
    ensures KeyOf(s) in a.rows && KeyOf(s) !in b.rows ==> Action(MergeGrid(a, b), s, a.qCount + j) == OutOfRow
    ensures KeyOf(s) !in a.rows && KeyOf(s) !in b.rows ==> Action(MergeGrid(a, b), s, a.qCount + j) == Undefined
  {
    var k := KeyOf(s);
    if k in b.rows {
      if j <= |b.rows[k]| {
        MergeSecondSlots(a, b, k, j - 1);
      }
    } else if k in a.rows {
      MergeRowOf(a, b, k);
      assert |MergeRow(a, b, k)| == a.qCount;
    } else {
      MergeShape(a, b);
    }
  }

  /** Every command symbol differs from the move characters, so _split_commands finds the move. */
  predicate CommandsPlain(g: Grid) {
    forall k, i :: k in g.rows && 0 <= i < |g.rows[k]| && g.rows[k][i].Cmd? ==> !IsMoveChar(g.rows[k][i].sym)
  }

  /** TuringFile._recount: the row with every non-halting next state `n` replaced by `n - 1 + q`. */
  method Recount(q: nat, row: seq<Slot>) returns (r: seq<Slot>)
    requires q >= 1
    ensures r == RecountRow(row, q)
  {
    r := row;
    for i := 0 to |r|
      invariant |r| == |row|
      invariant forall t :: 0 <= t < |row| ==> r[t] == if t < i then RecountSlot(row[t], q) else row[t]
    {
      if r[i].Cmd? && r[i].next != 0 {
        r := r[i := r[i].(next := r[i].next - 1 + q)];
      }
    }
  }

  /** The first loop of merge on one row: every halt continues in state `nextQ`. */
  method RedirectHaltsInRow(row: seq<Slot>, nextQ: nat) returns (r: seq<Slot>)
    ensures r == RedirectRow(row, nextQ)
  {
    r := row;
    for i := 0 to |r|
      invariant |r| == |row|
      invariant forall t :: 0 <= t < |row| ==> r[t] == if t < i then RedirectSlot(row[t], nextQ) else row[t]
    {
      if r[i].Cmd? && r[i].next == 0 {
        r := r[i := r[i].(next := nextQ)];
      }
    }
  }

  /** The first loop of merge: every halt of the first table, key by key, now continues in state `Qa + 1`. */
  method RedirectHalts(t: Table)
    requires t.Valid()
    modifies t
    ensures t.Value() == RedirectGrid(old(t.Value()))
  {
    ghost var a := t.Value();
    var keys := t.order;
    for j := 0 to |keys|
      invariant t.order == a.order && t.rows.Keys == a.rows.Keys
      invariant forall k :: k in a.rows ==> t.rows[k] == if k in keys[..j] then RedirectRow(a.rows[k], t.qCount + 1) else a.rows[k]
    {
      var k := keys[j];
      DistinctLast(keys, j + 1);
      var row := RedirectHaltsInRow(t.rows[k], t.qCount + 1);
      t.rows := t.rows[k := row];
      SplitLast(keys[..j + 1]);
      assert keys[..j + 1][..j] == keys[..j];
    }
    assert keys[..|keys|] == keys;
    SameRows(t.rows, RedirectGrid(a).rows);
  }

  /** Every key in the order has a row. */
  predicate Listed(g: Grid) {
    forall i :: 0 <= i < |g.order| ==> g.order[i] in g.rows
  }

  /**
   * The merged dict after the second loop of merge has handled the first
   * `n` keys of the second table `b`: a new key gets `Qa` empty slots and its
   * recounted row, a key already present gets its recounted row appended.
   */
  function Absorb(a: Grid, b: Grid, n: nat): (r: (seq<Byte>, map<Byte, seq<Slot>>))
    requires n <= |b.order| && Listed(b)
    decreases n
  {
    if n == 0 then (a.order, RedirectGrid(a).rows)
    else
      var (order, rows) := Absorb(a, b, n - 1);
      var k := b.order[n - 1];
      var recounted := RecountRow(b.rows[k], a.qCount + 1);
      if k !in rows then (order + [k], rows[k := Empties(a.qCount) + recounted])
      else (order, rows[k := rows[k] + recounted])
  }

  lemma {:induction false} AbsorbKeys(a: Grid, b: Grid, n: nat)
    requires n <= |b.order| && Listed(b)
    ensures forall k :: k in Absorb(a, b, n).1 <==> k in a.rows || k in b.order[..n]
  {
    if n > 0 {
      AbsorbKeys(a, b, n - 1);
      assert b.order[..n] == b.order[..n - 1] + [b.order[n - 1]];
    }
  }

  lemma {:induction false} AbsorbOrder(a: Grid, b: Grid, n: nat)
    requires n <= |b.order| && Listed(b) && Distinct(b.order)
    ensures Absorb(a, b, n).0 == a.order + Appended(a.rows, b.order[..n])
  {
    if n > 0 {
      AbsorbOrder(a, b, n - 1);
      AbsorbKeys(a, b, n - 1);
      var k := b.order[n - 1];
      DistinctLast(b.order, n);
      assert b.order[..n][..n - 1] == b.order[..n - 1];
      AppendAssoc(a.order, Appended(a.rows, b.order[..n - 1]), [k]);
    }
  }

  lemma {:induction false} AbsorbRows(a: Grid, b: Grid, n: nat)
    requires n <= |b.order| && Listed(b) && Distinct(b.order)
    ensures forall k :: k in b.order[..n] ==> k in Absorb(a, b, n).1 && Absorb(a, b, n).1[k] == MergeRow(a, b, k)
    ensures forall k :: k in a.rows && k !in b.order[..n] ==>
      k in Absorb(a, b, n).1 && Absorb(a, b, n).1[k] == RedirectRow(a.rows[k], a.qCount + 1)
  {
    if n > 0 {
      AbsorbRows(a, b, n - 1);
      AbsorbKeys(a, b, n - 1);
      var k := b.order[n - 1];
      assert b.order[..n] == b.order[..n - 1] + [k];
      assert k !in b.order[..n - 1];
      var prev := Absorb(a, b, n - 1).1;
      var rows := Absorb(a, b, n).1;
      var recounted := RecountRow(b.rows[k], a.qCount + 1);
      if k in prev {
        assert k in a.rows && prev[k] == RedirectRow(a.rows[k], a.qCount + 1);
        assert rows[k] == MergeRow(a, b, k);
      } else {
        assert k !in a.rows;
        assert rows[k] == MergeRow(a, b, k);
      }
      forall x | x in a.rows && x !in b.order[..n]
        ensures x in rows && rows[x] == RedirectRow(a.rows[x], a.qCount + 1)
      {
        assert x != k && x !in b.order[..n - 1];
        assert rows[x] == prev[x];
      }
    }
  }

  /** After all keys of the second table, the dict is that of the merged table. */
  lemma AbsorbAllRows(a: Grid, b: Grid)
    requires Keyed(b.order, b.rows)
    ensures Listed(b) && Absorb(a, b, |b.order|).1 == MergeRows(a, b)
  {
    var n := |b.order|;
    assert Listed(b);
    AbsorbKeys(a, b, n);
    AbsorbRows(a, b, n);
    assert b.order[..n] == b.order;
    var rows := Absorb(a, b, n).1;
    var merged := MergeRows(a, b);
    forall k | k in rows ensures k in merged && rows[k] == merged[k] {
      if k !in b.rows {
        assert MergeRow(a, b, k) == RedirectRow(a.rows[k], a.qCount + 1) + [];
      }
    }
    SameRows(rows, merged);
  }

  /** After all keys of the second table, the dict and its key order are those of the merged table. */
  lemma AbsorbAll(a: Grid, b: Grid)
    requires Normal(a) && Normal(b)
    ensures Absorb(a, b, |b.order|) == (MergeGrid(a, b).order, MergeGrid(a, b).rows)
  {
    AbsorbAllRows(a, b);
    AbsorbOrder(a, b, |b.order|);
    assert b.order[..|b.order|] == b.order;
  }

  /**
   * The second loop of merge over the keys of the second table `b`: a new
   * key gets `Qa` empty slots and its recounted row; a key the first table
   * has gets its recounted row appended, both in the merged dict and in the
   * first table, whose list the dict shares.
   */
  method AppendSecond(t: Table, b: Grid, ghost a: Grid) returns (order: seq<Byte>, rows: map<Byte, seq<Slot>>)
    requires Normal(a) && Normal(b) && t.Value() == RedirectGrid(a)
    modifies t
    ensures order == MergeGrid(a, b).order && rows == MergeGrid(a, b).rows
    ensures t.order == a.order && t.rows.Keys == a.rows.Keys
    ensures forall k :: k in a.rows ==> t.rows[k] == rows[k]
  {
    var nextQ := t.qCount + 1;
    order := t.order;
    rows := t.rows;
    for j := 0 to |b.order|
      invariant (order, rows) == Absorb(a, b, j)
      invariant t.order == a.order && t.rows.Keys == a.rows.Keys && a.rows.Keys <= rows.Keys
      invariant forall k :: k in a.rows ==> t.rows[k] == rows[k]
    {
      var k := b.order[j];
      AbsorbKeys(a, b, j);
      assert k !in b.order[..j];
      var recounted := Recount(nextQ, b.rows[k]);
      if k !in rows {
        rows := rows[k := Empties(t.qCount) + recounted];
        order := order + [k];
      } else {
        rows := rows[k := rows[k] + recounted];
        t.rows := t.rows[k := t.rows[k] + recounted];
      }
    }
    AbsorbAll(a, b);
  }

  /** A Turing machine file: the table, the tape, the comment and the solution. */
  class TuringFile {
    const table: Table
    const tape: Tape
    const comment: seq<Byte>
    const solution: seq<Byte>

    constructor (table: Table, tape: Tape, comment: seq<Byte>, solution: seq<Byte>)
      ensures this.table == table && this.tape == tape
      ensures this.comment == comment && this.solution == solution
    {
      this.table := table;
      this.tape := tape;
      this.comment := comment;
      this.solution := solution;
    }

    function Value(): FileValue
      reads table, tape
    {
      FileValue(table.Value(), tape.Value(), comment, solution)
    }

    /** TuringFile.to_bytes: the fields written one after another; Overflow where to_bytes(4) raises. */
    method ToBytes() returns (r: Result<seq<Byte>, CodecError>)
      requires Keyed(table.order, table.rows)
      ensures r == EncodeFile(Value())
    {
      if |solution| >= TWO_32 {
        return Err(Overflow);
      }
      var buf := U32(|solution|);
      buf := buf + solution;
      assert buf == Prefixed(solution);
      if table.qCount + 1 >= TWO_32 {
        return Err(Overflow);
      }
      buf := buf + U32(table.qCount + 1);
      var text, length := table.ToBytes();
      if length >= TWO_32 {
        return Err(Overflow);
      }
      ghost var head := buf;
      buf := buf + U32(length);
      buf := buf + text;
      AppendAssoc(head, U32(length), text);
      if |comment| >= TWO_32 {
        return Err(Overflow);
      }
      head := buf;
      buf := buf + U32(|comment|);
      buf := buf + comment;
      AppendAssoc(head, U32(|comment|), comment);
      var begin, end, pointer := SignedField(tape.begin), SignedField(tape.end), SignedField(tape.pointer);
      if begin.Err? || end.Err? || pointer.Err? {
        return Err(Overflow);
      }
      buf := buf + U32(begin.value);
      buf := buf + U32(end.value);
      buf := buf + U32(pointer.value);
      buf := buf + tape.content;
      EncodedBytes(Value());
      r := Ok(buf);
    }

    /** TuringFile.from_bytes: reads the fields in order and builds the table and the tape. */
    static method FromBytes(source: seq<Byte>) returns (f: TuringFile)
      requires WellFormed(source)
      ensures fresh(f) && fresh(f.table) && fresh(f.tape)
      ensures f.table.Valid() && f.Value() == DecodeFile(source)
    {
      var (solution, r1) := ReadPrefixed(source);
      var (qField, r2) := ReadU32(r1);
      var (tableText, r3) := ReadPrefixed(r2);
      var (comment, r4) := ReadPrefixed(r3);
      var (begin, r5) := ReadU32(r4);
      var (end, r6) := ReadU32(r5);
      var (pointer, tapeText) := ReadU32(r6);
      var t := new Tape(SignedValue(begin), SignedValue(end), SignedValue(pointer), tapeText);
      var table := Table.FromBytes(Split(tableText, CRLF), qField - 1);
      f := new TuringFile(table, t, comment, solution);
    }

    /**
     * TuringFile.merge: the machine that runs this one and, where this one
     * halts, continues with `other`. The result shares this file's tape,
     * comment and solution. This file's rows are rewritten in place: every
     * row ends up as the merged row of its key, because the source copies
     * the dict but not its lists. When `other` holds this very table, the
     * second machine is read after the first loop has redirected its halts.
     */
    method Merge(other: TuringFile) returns (m: TuringFile)
      requires table.Valid() && other.table.Valid()
      requires CommandsPlain(table.Value()) && CommandsPlain(other.table.Value())
      modifies table
      ensures fresh(m) && fresh(m.table)
      ensures m.tape == tape && m.comment == comment && m.solution == solution
      ensures m.table.Value() == MergeGrid(old(table.Value()),
        if other.table == table then RedirectGrid(old(table.Value())) else old(other.table.Value()))
      ensures table.order == old(table.order) && table.rows.Keys == old(table.rows.Keys)
      ensures forall k :: k in table.rows ==> table.rows[k] == m.table.rows[k]
    {
      ghost var a := table.Value();
      var newQ := table.qCount + other.table.qCount;
      RedirectHalts(table);
      var b := other.table.Value();
      var order, rows := AppendSecond(table, b, a);
      assert Normal(MergeGrid(a, b));
      var merged := new Table(order, rows, newQ);
      m := new TuringFile(merged, tape, comment, solution);
    }
  }
}
