/**
 * The rule table and the file format of the Markov normal-algorithm tool
 * (altmarkov.py): a table is a list of rows, each row one to three strings
 * (the pattern, the replacement and a comment), stored on disk as
 * tab-separated lines ending in CR LF.
 */
module MarkovTable {
  import opened Wrappers
  import opened Text

  /** One row of the table as the source keeps it: a list of strings. */
  type Field = seq<seq<Byte>>

  /** A row padded to its three parts. */
  datatype Rule = Rule(src: seq<Byte>, dst: seq<Byte>, comment: seq<Byte>)

  /** MarkovException for a row of more than three parts, and the OverflowError of a length field. */
  datatype MarkovError = FieldTooLong | Overflow

  /** Table.recognize_field: the parts of a row of at most three, padded with empty strings. */
  function RecognizeField(field: Field): (r: Result<Rule, MarkovError>)
    ensures r.Ok? <==> |field| <= 3
    ensures r.Err? ==> r.error == FieldTooLong
    ensures r.Ok? ==> var parts := [r.value.src, r.value.dst, r.value.comment];
      parts[..|field|] == field && forall i :: |field| <= i < 3 ==> parts[i] == []
  {
    if |field| == 0 then Ok(Rule([], [], []))
    else if |field| == 1 then Ok(Rule(field[0], [], []))
    else if |field| == 2 then Ok(Rule(field[0], field[1], []))
    else if |field| == 3 then Ok(Rule(field[0], field[1], field[2]))
    else Err(FieldTooLong)
  }

  /**
   * The shape of the rows Table.add_field stores: a lone non-empty pattern,
   * or three parts that are not all empty and are not a pattern with an
   * empty replacement.
   */
  predicate StoredField(f: Field) {
    (|f| == 1 && f[0] != []) ||
    (|f| == 3 && (f[0] == [] || f[1] != []) && (f[0] != [] || f[1] != [] || f[2] != []))
  }

  /** The rows Table.add_field appends for a padded row. */
  function Stored(r: Rule): (fs: seq<Field>)
    ensures |fs| <= 1
    ensures fs == [] <==> r.src == [] && r.dst == [] && r.comment == []
    ensures forall i :: 0 <= i < |fs| ==> StoredField(fs[i])
  {
    if |r.comment| == 0 && |r.src| == 0 && |r.dst| == 0 then []
    else if r.src != [] && r.dst == [] then [[r.src]]
    else [[r.src, r.dst, r.comment]]
  }

  /**
   * Reading a stored row back gives the rule that was added, except that a
   * pattern with an empty replacement loses its comment.
   */
  lemma StoredRecognized(r: Rule)
    requires Stored(r) != []
    ensures RecognizeField(Stored(r)[0]) ==
      Ok(if r.src != [] && r.dst == [] then r.(comment := []) else r)
  {
  }

  /** A stored row is added back unchanged: the table's shape is a fixed point. */
  lemma StoredFixed(f: Field)
    requires StoredField(f)
    ensures RecognizeField(f).Ok? && Stored(RecognizeField(f).value) == [f]
  {
    if |f| == 1 {
      assert [f[0]] == f;
    } else {
      assert [f[0], f[1], f[2]] == f;
    }
  }

  /** Table(rows): every row recognized and added in order; a row of more than three parts raises. */
  function Corrected(rows: seq<Field>): (r: Result<seq<Field>, MarkovError>)
    ensures r.Ok? <==> forall i :: 0 <= i < |rows| ==> |rows[i]| <= 3
    ensures r.Ok? ==> |r.value| <= |rows| && forall i :: 0 <= i < |r.value| ==> StoredField(r.value[i])
    decreases |rows|
  {
    if rows == [] then Ok([])
    else
      match Corrected(rows[..|rows| - 1])
      case Err(e) => Err(e)
      case Ok(fs) =>
        match RecognizeField(rows[|rows| - 1])
        case Err(e) => Err(e)
        case Ok(rule) => Ok(fs + Stored(rule))
  }

  /** Building a table from rows that already have the stored shape keeps them all, in order. */
  lemma {:induction false} CorrectedStored(rows: seq<Field>)
    requires forall i :: 0 <= i < |rows| ==> StoredField(rows[i])
    ensures Corrected(rows) == Ok(rows)
    decreases |rows|
  {
    if rows != [] {
      var n := |rows|;
      CorrectedStored(rows[..n - 1]);
      StoredFixed(rows[n - 1]);
      assert rows[..n - 1] + [rows[n - 1]] == rows;
    }
  }

  /** A row holding one empty string adds nothing. */
  lemma CorrectedBlank(rows: seq<Field>)
    ensures Corrected(rows + [[[]]]) == Corrected(rows)
  {
    var longer := rows + [[[]]];
    assert longer[..|rows|] == rows;
    assert longer[|rows|] == [[]];
    assert RecognizeField([[]]) == Ok(Rule([], [], []));
    if Corrected(rows).Ok? {
      var fs := Corrected(rows).value;
      assert fs + [] == fs;
    }
  }

  // ---------------------------------------------------------------------
  // Table.to_bytes and Table.from_bytes
  // ---------------------------------------------------------------------

  /** A row as a line: its parts joined by tabs. */
  function RowText(f: Field): seq<Byte> {
    Join([TAB], f)
  }

  /** Table.to_bytes: the row lines joined by CR LF, with one more CR LF at the end. */
  function TableBytes(fields: seq<Field>): seq<Byte> {
    Join(CRLF, seq(|fields|, i requires 0 <= i < |fields| => RowText(fields[i]))) + CRLF
  }

  /** The rows of a table text: lines split at CR LF, each line split at tabs. */
  function TableRows(b: seq<Byte>): (rows: seq<Field>) {
    var lines := Split(b, CRLF);
    seq(|lines|, i requires 0 <= i < |lines| => Split(lines[i], [TAB]))
  }

  /** Table.from_bytes: the table built from the rows of the text. */
  function DecodeTable(b: seq<Byte>): Result<seq<Field>, MarkovError> {
    Corrected(TableRows(b))
  }

  /** A part the table text can carry: no tab and no carriage return. */
  predicate Plain(s: seq<Byte>) {
    Free(s, TAB) && Free(s, CR)
  }

  predicate PlainRows(fields: seq<Field>) {
    forall i, j :: 0 <= i < |fields| && 0 <= j < |fields[i]| ==> Plain(fields[i][j])
  }

  /** Joining non-empty lines with CR LF and ending with CR LF terminates every line. */
  lemma {:induction false} JoinTerminated(lines: seq<seq<Byte>>)
    requires |lines| > 0
    ensures Join(CRLF, lines) + CRLF == Terminated(lines)
    decreases |lines|
  {
    if |lines| > 1 {
      JoinTerminated(lines[1..]);
      AppendAssoc(lines[0], CRLF, Join(CRLF, lines[1..]));
      assert Join(CRLF, lines) + CRLF == lines[0] + CRLF + (Join(CRLF, lines[1..]) + CRLF);
    }
  }

  /** The rows of an encoded table: the table's rows and one empty trailing row. */
  lemma TableRowsEncoded(fields: seq<Field>)
    requires |fields| > 0
    requires forall i :: 0 <= i < |fields| ==> StoredField(fields[i])
    requires PlainRows(fields)
    ensures TableRows(TableBytes(fields)) == fields + [[[]]]
  {
    var lines := seq(|fields|, i requires 0 <= i < |fields| => RowText(fields[i]));
    forall i | 0 <= i < |lines|
      ensures Free(lines[i], CR) && Split(lines[i], [TAB]) == fields[i]
    {
      JoinFree([TAB], fields[i], CR);
      SplitJoin(fields[i], [TAB]);
    }
    JoinTerminated(lines);
    SplitTerminated(lines);
    var split := Split(TableBytes(fields), CRLF);
    assert split == lines + [[]];
    assert Split([], [TAB]) == [[]];
  }

  /**
   * Table.from_bytes(t.to_bytes()) rebuilds the table row for row, when no
   * part holds a tab or a carriage return; the empty line after the last
   * CR LF adds no row.
   */
  lemma TableRoundTrip(fields: seq<Field>)
    requires forall i :: 0 <= i < |fields| ==> StoredField(fields[i])
    requires PlainRows(fields)
    ensures DecodeTable(TableBytes(fields)) == Ok(fields)
  {
    if fields == [] {
      assert TableBytes(fields) == CRLF;
      assert Split(CRLF, CRLF) == [[]] + Split([], CRLF);
      assert Split([], [TAB]) == [[]];
      assert TableRows(CRLF) == [[[]], [[]]];
      var none: seq<Field> := [];
      CorrectedBlank(none);
      assert none + [[[]]] == [[[]]];
      CorrectedBlank([[[]]]);
      assert [[[]]] + [[[]]] == TableRows(CRLF);
      assert Corrected(TableRows(CRLF)) == Ok(none);
    } else {
      TableRowsEncoded(fields);
      CorrectedBlank(fields);
      CorrectedStored(fields);
    }
  }

  // ---------------------------------------------------------------------
  // MarkovFile.to_bytes and MarkovFile.from_bytes
  // ---------------------------------------------------------------------

  /** The contents of a MarkovFile: the table's rows, the input word and the solution text. */
  datatype MarkovValue = MarkovValue(fields: seq<Field>, word: seq<Byte>, solution: seq<Byte>)

  /**
   * MarkovFile.to_bytes: the solution, the word followed by CR LF, and the
   * table text, each after its length as a 4-byte little-endian number; a
   * length that does not fit in four bytes raises.
   */
  function EncodeMarkov(m: MarkovValue): (r: Result<seq<Byte>, MarkovError>)
    ensures r.Err? <==> |m.solution| >= TWO_32 || |m.word| + 2 >= TWO_32 || |TableBytes(m.fields)| >= TWO_32
  {
    var word := m.word + CRLF;
    var table := TableBytes(m.fields);
    if |m.solution| >= TWO_32 || |word| >= TWO_32 || |table| >= TWO_32 then Err(Overflow)
    else Ok(Prefixed(m.solution) + Prefixed(word) + Prefixed(table))
  }

  /**
   * MarkovFile.from_bytes: three length-prefixed fields read in order (a
   * short stream gives short fields); every CR LF pair is removed from the
   * word and the table text is parsed as by Table.from_bytes.
   */
  function DecodeMarkov(b: seq<Byte>): Result<MarkovValue, MarkovError> {
    var (solution, r1) := ReadPrefixed(b);
    var (word, r2) := ReadPrefixed(r1);
    var (table, _) := ReadPrefixed(r2);
    match DecodeTable(table)
    case Err(e) => Err(e)
    case Ok(fields) => Ok(MarkovValue(fields, RemoveAll(word, CRLF), solution))
  }

  /** Removing CR LF pairs from a word without carriage returns, then its terminator, gives the word back. */
  lemma {:induction false} RemoveTerminator(w: seq<Byte>)
    requires Free(w, CR)
    ensures RemoveAll(w + CRLF, CRLF) == w
    decreases |w|
  {
    if w == [] {
      assert w + CRLF == CRLF + [];
    } else {
      var s := w + CRLF;
      assert s[0] == w[0] != CR;
      assert s[1..] == w[1..] + CRLF;
      RemoveTerminator(w[1..]);
      assert w == [w[0]] + w[1..];
    }
  }

  /**
   * MarkovFile.from_bytes(m.to_bytes()) recovers the solution, the word and
   * the table, when the word holds no carriage return and no table part
   * holds a tab or a carriage return.
   */
  lemma MarkovRoundTrip(m: MarkovValue)
    requires forall i :: 0 <= i < |m.fields| ==> StoredField(m.fields[i])
    requires PlainRows(m.fields) && Free(m.word, CR)
    requires EncodeMarkov(m).Ok?
    ensures DecodeMarkov(EncodeMarkov(m).value) == Ok(m)
  {
    var word := m.word + CRLF;
    var table := TableBytes(m.fields);
    var r2 := Prefixed(table);
    var r1 := Prefixed(word) + r2;
    AppendAssoc(Prefixed(m.solution), Prefixed(word), r2);
    ReadPrefixedWritten(m.solution, r1);
    ReadPrefixedWritten(word, r2);
    assert r2 == r2 + [];
    ReadPrefixedWritten(table, []);
    TableRoundTrip(m.fields);
    RemoveTerminator(m.word);
  }

  // ---------------------------------------------------------------------
  // The objects
  // ---------------------------------------------------------------------

  function OrEmpty(s: Option<seq<Byte>>): seq<Byte> {
    if s.Some? then s.value else []
  }

  /** Table: the list of rows, grown by add_field. */
  class Table {
    var fields: seq<Field>

    /** Every row has the shape add_field gives it. */
    predicate Valid()
      reads this
    {
      forall i :: 0 <= i < |fields| ==> StoredField(fields[i])
    }

    /** The empty list the source constructor starts from. */
    constructor ()
      ensures fields == [] && Valid()
    {
      fields := [];
    }

    /** Table.add_field: a missing part counts as empty; see Stored for what is appended. */
    method AddField(src: Option<seq<Byte>>, dst: Option<seq<Byte>>, comment: Option<seq<Byte>>)
      requires Valid()
      modifies this
      ensures Valid()
      ensures fields == old(fields) + Stored(Rule(OrEmpty(src), OrEmpty(dst), OrEmpty(comment)))
    {
      var s, d, c := OrEmpty(src), OrEmpty(dst), OrEmpty(comment);
      if |c| == 0 && |s| == 0 && |d| == 0 {
        return;
      }
      if s != [] && d == [] {
        fields := fields + [[s]];
      } else {
        fields := fields + [[s, d, c]];
      }
    }

    /** Table._correct_fields: each row recognized and added; the first row of more than three parts raises. */
    method CorrectFields(rows: seq<Field>) returns (err: Option<MarkovError>)
      requires Valid()
      modifies this
      ensures Valid()
      ensures err.None? <==> Corrected(rows).Ok?
      ensures err.Some? ==> err.value == FieldTooLong
      ensures err.None? ==> fields == old(fields) + Corrected(rows).value
    {
      for i := 0 to |rows|
        invariant Valid() && Corrected(rows[..i]).Ok?
        invariant fields == old(fields) + Corrected(rows[..i]).value
      {
        assert rows[..i + 1][..i] == rows[..i];
        var rule := RecognizeField(rows[i]);
        if rule.Err? {
          assert !Corrected(rows[..i + 1]).Ok?;
          assert rows[..i + 1] == rows[..i + 1][..i + 1];
          CorrectedPrefix(rows, i + 1);
          return Some(FieldTooLong);
        }
        AddField(Some(rule.value.src), Some(rule.value.dst), Some(rule.value.comment));
      }
      assert rows[..|rows|] == rows;
      return None;
    }

    /** Table(rows) */
    static method New(rows: seq<Field>) returns (r: Result<Table, MarkovError>)
      ensures r.Ok? <==> Corrected(rows).Ok?
      ensures r.Err? ==> r.error == FieldTooLong
      ensures r.Ok? ==> fresh(r.value) && r.value.Valid() && r.value.fields == Corrected(rows).value
    {
      var t := new Table();
      var err := t.CorrectFields(rows);
      if err.Some? {
        return Err(err.value);
      }
      return Ok(t);
    }

    /** Table.from_bytes */
    static method FromBytes(b: seq<Byte>) returns (r: Result<Table, MarkovError>)
      ensures r.Ok? <==> DecodeTable(b).Ok?
      ensures r.Ok? ==> fresh(r.value) && r.value.Valid() && r.value.fields == DecodeTable(b).value
    {
      r := New(TableRows(b));
    }
  }

  /** A table that a longer prefix of the rows fails on fails for the whole list as well. */
  lemma {:induction false} CorrectedPrefix(rows: seq<Field>, n: nat)
    requires n <= |rows| && !Corrected(rows[..n]).Ok?
    ensures !Corrected(rows).Ok?
  {
  }

  /** MarkovFile: a table, the input word and the solution text. */
  class MarkovFile {
    const table: Table
    const word: seq<Byte>
    const solution: seq<Byte>

    constructor (table: Table, word: seq<Byte>, solution: seq<Byte>)
      ensures this.table == table && this.word == word && this.solution == solution
    {
      this.table := table;
      this.word := word;
      this.solution := solution;
    }

    function Value(): MarkovValue
      reads this, table
    {
      MarkovValue(table.fields, word, solution)
    }

    /**
     * MarkovFile.merge: the copy it makes shares this file's table, so the
     * other file's rows are appended to this file's own table.
     */
    method Merge(other: MarkovFile)
      requires table.Valid() && other.table.Valid()
      modifies table
      ensures table.Valid()
      ensures table.fields == old(table.fields) + old(other.table.fields)
    {
      var copy := new MarkovFile(table, word, solution);
      copy.table.fields := copy.table.fields + other.table.fields;
    }

    /** MarkovFile.to_bytes: the three fields written one after the other. */
    method ToBytes() returns (r: Result<seq<Byte>, MarkovError>)
      ensures r == EncodeMarkov(Value())
    {
      if |solution| >= TWO_32 {
        return Err(Overflow);
      }
      var solutionLength := U32(|solution|);
      var wordText := word + CRLF;
      if |wordText| >= TWO_32 {
        return Err(Overflow);
      }
      var wordLength := U32(|wordText|);
      var tableText := TableBytes(table.fields);
      if |tableText| >= TWO_32 {
        return Err(Overflow);
      }
      var tableLength := U32(|tableText|);
      var buf := solutionLength;
      buf := buf + solution;
      AppendAssoc(buf, wordLength, wordText);
      buf := buf + wordLength;
      buf := buf + wordText;
      AppendAssoc(buf, tableLength, tableText);
      buf := buf + tableLength;
      buf := buf + tableText;
      return Ok(buf);
    }

    /** MarkovFile.from_bytes on a byte string. */
    static method FromBytes(source: seq<Byte>) returns (r: Result<MarkovFile, MarkovError>)
      ensures r.Ok? <==> DecodeMarkov(source).Ok?
      ensures r.Ok? ==> fresh(r.value) && fresh(r.value.table) && r.value.table.Valid()
      ensures r.Ok? ==> r.value.Value() == DecodeMarkov(source).value
    {
      var (solution, r1) := ReadPrefixed(source);
      var (word, r2) := ReadPrefixed(r1);
      var (tableText, _) := ReadPrefixed(r2);
      var table := Table.FromBytes(tableText);
      if table.Err? {
        return Err(table.error);
      }
      var f := new MarkovFile(table.value, RemoveAll(word, CRLF), solution);
      return Ok(f);
    }
  }
}
