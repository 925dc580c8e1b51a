/**
 * Text and byte helpers shared by the toolchains.
 *
 * The programs read and write the single-byte code page cp1251. The model
 * treats every character as one byte: text and binary buffers are both
 * sequences of `Byte`, and encoding or decoding text is the identity.
 */
module Text {
  import opened Wrappers

  /** One character of the single-byte code page, which is also one byte of a buffer. */
  type Byte = c: char | c as int < 256 witness ' '

  const TAB: Byte := '\t'
  const CR: Byte := '\r'
  const LF: Byte := '\n'
  const CRLF: seq<Byte> := [CR, LF]

  // ---------------------------------------------------------------------
  // Whitespace (Python's str.isspace / str.strip on single-byte text)
  // ---------------------------------------------------------------------

  /**
   * The bytes whose cp1251 character Python's str.isspace accepts: the
   * control characters 9-13 and 28-31, the space, and 0xA0 (no-break
   * space). Byte 0x85 is the ellipsis in cp1251, not whitespace.
   */
  predicate IsSpace(c: Byte) {
    var n := c as int;
    (9 <= n <= 13) || (28 <= n <= 32) || n == 0xA0
  }

  /** str.lstrip(): drops the leading whitespace. */
  function LStrip(s: seq<Byte>): (r: seq<Byte>)
    ensures |r| <= |s| && r == s[|s| - |r|..]
    ensures r == [] || !IsSpace(r[0])
    ensures forall i :: 0 <= i < |s| - |r| ==> IsSpace(s[i])
  {
    if s != [] && IsSpace(s[0]) then LStrip(s[1..]) else s
  }

  /** str.rstrip(): drops the trailing whitespace. */
  function RStrip(s: seq<Byte>): (r: seq<Byte>)
    ensures |r| <= |s| && r == s[..|r|]
    ensures r == [] || !IsSpace(r[|r| - 1])
    ensures forall i :: |r| <= i < |s| ==> IsSpace(s[i])
  {
    if s != [] && IsSpace(s[|s| - 1]) then RStrip(s[..|s| - 1]) else s
  }

  /** str.strip(). */
  function Strip(s: seq<Byte>): seq<Byte> {
    RStrip(LStrip(s))
  }

  predicate AllSpace(s: seq<Byte>) {
    forall i :: 0 <= i < |s| ==> IsSpace(s[i])
  }

  /** Stripping leaves nothing exactly when the text is all whitespace. */
  lemma StripEmpty(s: seq<Byte>)
    ensures Strip(s) == [] <==> AllSpace(s)
  {
    var l := LStrip(s);
    if l != [] {
      assert l[0] == s[|s| - |l|];
      assert RStrip(l) != [];
    }
  }

  /** True when the text has no whitespace at either end, as Strip leaves it. */
  predicate Stripped(s: seq<Byte>) {
    s == [] || (!IsSpace(s[0]) && !IsSpace(s[|s| - 1]))
  }

  lemma StripIsStripped(s: seq<Byte>)
    ensures Stripped(Strip(s))
    ensures Stripped(s) ==> Strip(s) == s
  {
    var l := LStrip(s);
    if Stripped(s) && s != [] {
      assert l == s;
    }
    if RStrip(l) != [] {
      assert RStrip(l) == l[..|RStrip(l)|];
    }
  }

  /** Lower-cases the ASCII letters, as str.lower() does on the ASCII tags of the register language. */
  function Lower(s: seq<Byte>): (r: seq<Byte>)
    ensures |r| == |s|
    ensures forall i :: 0 <= i < |s| ==> r[i] == (if 'A' <= s[i] <= 'Z' then (s[i] as int + 32) as char else s[i])
  {
    if s == [] then []
    else [if 'A' <= s[0] <= 'Z' then (s[0] as int + 32) as char else s[0]] + Lower(s[1..])
  }

  // ---------------------------------------------------------------------
  // Separators: str.split(sep) and sep.join(parts)
  // ---------------------------------------------------------------------

  /** sep.join(parts). */
  function Join<T>(sep: seq<T>, parts: seq<seq<T>>): seq<T>
    decreases |parts|
  {
    if |parts| == 0 then []
    else if |parts| == 1 then parts[0]
    else parts[0] + sep + Join(sep, parts[1..])
  }

  /**
   * The scan behind str.split(sep): `cur` is the part read so far; every
   * leftmost occurrence of `sep` closes a part.
   */
  function SplitFrom<T(==)>(s: seq<T>, sep: seq<T>, cur: seq<T>): (r: seq<seq<T>>)
    requires |sep| > 0
    ensures |r| > 0
    decreases |s|
  {
    if |sep| <= |s| && s[..|sep|] == sep then [cur] + SplitFrom(s[|sep|..], sep, [])
    else if s == [] then [cur]
    else SplitFrom(s[1..], sep, cur + [s[0]])
  }

  /** str.split(sep) for a non-empty separator. */
  function Split<T(==)>(s: seq<T>, sep: seq<T>): (r: seq<seq<T>>)
    requires |sep| > 0
    ensures |r| > 0
  {
    SplitFrom(s, sep, [])
  }

  /** True when no element of `p` is `c`. */
  predicate Free<T(==)>(p: seq<T>, c: T) {
    forall i :: 0 <= i < |p| ==> p[i] != c
  }

  /** A stretch of text that cannot start a separator is copied into the current part. */
  lemma {:induction false} SplitFromFree<T>(p: seq<T>, rest: seq<T>, sep: seq<T>, cur: seq<T>)
    requires |sep| > 0 && Free(p, sep[0])
    ensures SplitFrom(p + rest, sep, cur) == SplitFrom(rest, sep, cur + p)
    decreases |p|
  {
    if p != [] {
      var s := p + rest;
      assert s[0] == p[0] != sep[0];
      assert !(|sep| <= |s| && s[..|sep|] == sep);
      assert s[1..] == p[1..] + rest;
      SplitFromFree(p[1..], rest, sep, cur + [p[0]]);
      assert cur + [p[0]] + p[1..] == cur + p;
    } else {
      assert p + rest == rest;
      assert cur + p == cur;
    }
  }

  /** A separator closes the current part. */
  lemma SplitFromSep<T>(rest: seq<T>, sep: seq<T>, cur: seq<T>)
    requires |sep| > 0
    ensures SplitFrom(sep + rest, sep, cur) == [cur] + SplitFrom(rest, sep, [])
  {
    var s := sep + rest;
    assert s[..|sep|] == sep;
    assert s[|sep|..] == rest;
  }

  /** split undoes join when no part holds the separator's first character. */
  lemma {:induction false} SplitJoin<T>(parts: seq<seq<T>>, sep: seq<T>)
    requires |sep| > 0 && |parts| > 0
    requires forall i :: 0 <= i < |parts| ==> Free(parts[i], sep[0])
    ensures Split(Join(sep, parts), sep) == parts
    decreases |parts|
  {
    if |parts| == 1 {
      SplitFromFree(parts[0], [], sep, []);
      assert parts[0] + [] == parts[0];
      assert [] + parts[0] == parts[0];
    } else {
      var tail := Join(sep, parts[1..]);
      assert Join(sep, parts) == parts[0] + (sep + tail);
      SplitFromFree(parts[0], sep + tail, sep, []);
      assert [] + parts[0] == parts[0];
      SplitFromSep(tail, sep, parts[0]);
      SplitJoin(parts[1..], sep);
      assert parts == [parts[0]] + parts[1..];
    }
  }

  /** Joining parts free of a character gives a text free of it, when the separator is free of it too. */
  lemma {:induction false} JoinFree<T>(sep: seq<T>, parts: seq<seq<T>>, c: T)
    requires Free(sep, c)
    requires forall i :: 0 <= i < |parts| ==> Free(parts[i], c)
    ensures Free(Join(sep, parts), c)
    decreases |parts|
  {
    if |parts| > 1 {
      JoinFree(sep, parts[1..], c);
    }
  }

  /** Lines each followed by CR LF, the layout of the binary tables. */
  function Terminated(lines: seq<seq<Byte>>): (r: seq<Byte>)
    decreases |lines|
  {
    if lines == [] then [] else lines[0] + CRLF + Terminated(lines[1..])
  }

  /** Splitting CR LF-terminated lines gives the lines and one empty trailing part. */
  lemma {:induction false} SplitTerminated(lines: seq<seq<Byte>>)
    requires forall i :: 0 <= i < |lines| ==> Free(lines[i], CR)
    ensures Split(Terminated(lines), CRLF) == lines + [[]]
    decreases |lines|
  {
    if lines != [] {
      var tail := Terminated(lines[1..]);
      assert Terminated(lines) == lines[0] + (CRLF + tail);
      SplitFromFree(lines[0], CRLF + tail, CRLF, []);
      assert [] + lines[0] == lines[0];
      SplitFromSep(tail, CRLF, lines[0]);
      SplitTerminated(lines[1..]);
      assert lines + [[]] == [lines[0]] + (lines[1..] + [[]]);
    }
  }

  lemma AppendAssoc<T>(a: seq<T>, b: seq<T>, c: seq<T>)
    ensures a + b + c == a + (b + c)
  {
  }

  lemma TerminatedAppend(lines: seq<seq<Byte>>, line: seq<Byte>)
    ensures Terminated(lines + [line]) == Terminated(lines) + line + CRLF
  {
    if lines != [] {
      assert (lines + [line])[1..] == lines[1..] + [line];
      TerminatedAppend(lines[1..], line);
    } else {
      assert Terminated([line]) == line + CRLF + Terminated([]);
    }
  }

  /** Lines each followed by a line break, as a loop of `out += line + "\n"` builds them. */
  function LinesText(lines: seq<seq<Byte>>): seq<Byte>
    decreases |lines|
  {
    if lines == [] then [] else LinesText(lines[..|lines| - 1]) + lines[|lines| - 1] + [LF]
  }

  /** Splitting at line breaks gives back lines that hold none. */
  lemma {:induction false} SplitLines(lines: seq<seq<Byte>>, tail: seq<Byte>)
    requires forall i :: 0 <= i < |lines| ==> Free(lines[i], LF)
    ensures Split(LinesText(lines) + tail, [LF]) == lines + Split(tail, [LF])
    decreases |lines|
  {
    if lines != [] {
      var n := |lines|;
      var pre, last := lines[..n - 1], lines[n - 1];
      var rest := last + ([LF] + tail);
      assert LinesText(lines) == LinesText(pre) + last + [LF];
      AppendAssoc(LinesText(pre) + last, [LF], tail);
      AppendAssoc(LinesText(pre), last, [LF] + tail);
      assert LinesText(lines) + tail == LinesText(pre) + rest;
      SplitLines(pre, rest);
      assert Split(LinesText(lines) + tail, [LF]) == pre + Split(rest, [LF]);
      assert [LF][0] == LF;
      SplitFromFree(last, [LF] + tail, [LF], []);
      SplitFromSep(tail, [LF], [] + last);
      assert [] + last == last;
      assert Split(rest, [LF]) == [last] + Split(tail, [LF]);
      assert pre + [last] == lines;
      AppendAssoc(pre, [last], Split(tail, [LF]));
    } else {
      assert LinesText(lines) + tail == tail;
      assert lines + Split(tail, [LF]) == Split(tail, [LF]);
    }
  }

  // ---------------------------------------------------------------------
  // Decimal numbers: str(n) and int(s)
  // ---------------------------------------------------------------------

  predicate IsDigit(c: Byte) { '0' <= c <= '9' }

  predicate AllDigits(s: seq<Byte>) {
    forall i :: 0 <= i < |s| ==> IsDigit(s[i])
  }

  function DigitChar(d: nat): (c: Byte)
    requires d < 10
    ensures IsDigit(c)
  {
    ('0' as int + d) as char
  }

  /** str(n) for a non-negative integer: the shortest decimal spelling. */
  function NatText(n: nat): (s: seq<Byte>)
    ensures |s| > 0 && AllDigits(s)
    ensures s[0] == '0' ==> n == 0
    decreases n
  {
    if n < 10 then [DigitChar(n)] else NatText(n / 10) + [DigitChar(n % 10)]
  }

  /** int(s) for a non-empty string of ASCII digits. */
  function DigitsValue(s: seq<Byte>): nat
    requires AllDigits(s)
    decreases |s|
  {
    if s == [] then 0 else DigitsValue(s[..|s| - 1]) * 10 + (s[|s| - 1] as int - '0' as int)
  }

  /** int(str(n)) == n. */
  lemma {:induction false} NatTextValue(n: nat)
    ensures DigitsValue(NatText(n)) == n
    decreases n
  {
    if n >= 10 {
      var s := NatText(n / 10);
      assert (s + [DigitChar(n % 10)])[..|s|] == s;
      NatTextValue(n / 10);
    }
  }

  /** str is injective: different numbers are spelt differently. */
  lemma NatTextInjective(m: nat, n: nat)
    requires NatText(m) == NatText(n)
    ensures m == n
  {
    NatTextValue(m);
    NatTextValue(n);
  }

  // ---------------------------------------------------------------------
  // Little-endian unsigned fields: n.to_bytes(k, "little") and int.from_bytes
  // ---------------------------------------------------------------------

  function Pow256(k: nat): (p: nat)
    ensures p > 0
  {
    if k == 0 then 1 else 256 * Pow256(k - 1)
  }

  const TWO_32: nat := 0x1_0000_0000

  /** n.to_bytes(k, "little"), defined where it does not raise OverflowError. */
  function LittleEndian(n: nat, k: nat): (b: seq<Byte>)
    requires n < Pow256(k)
    ensures |b| == k
    decreases k
  {
    if k == 0 then [] else [(n % 256) as char] + LittleEndian(n / 256, k - 1)
  }

  /** int.from_bytes(b, "little") for a buffer of any length (a short read gives fewer bytes). */
  function FromLittleEndian(b: seq<Byte>): nat
    decreases |b|
  {
    if b == [] then 0 else b[0] as int + 256 * FromLittleEndian(b[1..])
  }

  lemma {:induction false} LittleEndianValue(n: nat, k: nat)
    requires n < Pow256(k)
    ensures FromLittleEndian(LittleEndian(n, k)) == n
    decreases k
  {
    if k > 0 {
      var b := LittleEndian(n, k);
      assert b[1..] == LittleEndian(n / 256, k - 1);
      LittleEndianValue(n / 256, k - 1);
    }
  }

  /** A u32 field: four bytes, least significant first. */
  function U32(n: nat): (b: seq<Byte>)
    requires n < TWO_32
    ensures |b| == 4
  {
    assert Pow256(4) == TWO_32;
    LittleEndian(n, 4)
  }

  lemma U32Value(n: nat)
    requires n < TWO_32
    ensures FromLittleEndian(U32(n)) == n
  {
    assert Pow256(4) == TWO_32;
    LittleEndianValue(n, 4);
  }

  lemma FromLittleEndianBound(b: seq<Byte>)
    ensures FromLittleEndian(b) < Pow256(|b|)
  {
  }

  // ---------------------------------------------------------------------
  // Reading a stream: f.read(n) returns at most n bytes
  // ---------------------------------------------------------------------

  /** f.read(n) on a stream positioned at `b`: the bytes read and the bytes left. */
  function Read(b: seq<Byte>, n: nat): (r: (seq<Byte>, seq<Byte>))
    ensures r.0 + r.1 == b
    ensures |r.0| == if n <= |b| then n else |b|
  {
    var k := if n <= |b| then n else |b|;
    (b[..k], b[k..])
  }

  /** int.from_bytes(f.read(4), "little"): the field read and the bytes left. */
  function ReadU32(b: seq<Byte>): (r: (nat, seq<Byte>))
    ensures r.0 < TWO_32
  {
    var (f, rest) := Read(b, 4);
    FromLittleEndianBound(f);
    assert Pow256(|f|) <= Pow256(4) == TWO_32 by {
      if |f| < 4 { PowMonotone(|f|, 4); }
    }
    (FromLittleEndian(f), rest)
  }

  lemma PowMonotone(i: nat, j: nat)
    requires i <= j
    ensures Pow256(i) <= Pow256(j)
    decreases j - i
  {
    if i < j { PowMonotone(i, j - 1); }
  }

  lemma ReadU32Written(n: nat, rest: seq<Byte>)
    requires n < TWO_32
    ensures ReadU32(U32(n) + rest) == (n, rest)
  {
    var b := U32(n) + rest;
    assert b[..4] == U32(n);
    assert b[4..] == rest;
    U32Value(n);
  }

  lemma ReadWritten(s: seq<Byte>, rest: seq<Byte>)
    ensures Read(s + rest, |s|) == (s, rest)
  {
    assert (s + rest)[..|s|] == s;
    assert (s + rest)[|s|..] == rest;
  }

  /** A length-prefixed field: u32 length, then the bytes. */
  function Prefixed(s: seq<Byte>): (b: seq<Byte>)
    requires |s| < TWO_32
  {
    U32(|s|) + s
  }

  /** Reads a length-prefixed field back: the bytes and what follows them. */
  function ReadPrefixed(b: seq<Byte>): (r: (seq<Byte>, seq<Byte>))
  {
    var (n, rest) := ReadU32(b);
    Read(rest, n)
  }

  lemma ReadPrefixedWritten(s: seq<Byte>, rest: seq<Byte>)
    requires |s| < TWO_32
    ensures ReadPrefixed(Prefixed(s) + rest) == (s, rest)
  {
    assert Prefixed(s) + rest == U32(|s|) + (s + rest);
    ReadU32Written(|s|, s + rest);
    ReadWritten(s, rest);
  }

  // ---------------------------------------------------------------------
  // Substrings: `sub in s`, s.find(sub), s.replace(sub, repl, 1)
  // ---------------------------------------------------------------------

  /** `sub` occurs in `s` at position `i`. */
  predicate OccursAt(s: seq<Byte>, sub: seq<Byte>, i: nat) {
    i + |sub| <= |s| && s[i..i + |sub|] == sub
  }

  /** s.find(sub) from position `from` on: the leftmost occurrence at or after `from`. */
  function FindFrom(s: seq<Byte>, sub: seq<Byte>, from: nat): (r: Option<nat>)
    ensures r.Some? ==> from <= r.value && OccursAt(s, sub, r.value)
    ensures r.Some? ==> forall j :: from <= j < r.value ==> !OccursAt(s, sub, j)
    ensures r.None? ==> forall j :: from <= j ==> !OccursAt(s, sub, j)
    decreases |s| - from
  {
    if from + |sub| > |s| then None
    else if s[from..from + |sub|] == sub then Some(from)
    else FindFrom(s, sub, from + 1)
  }

  /** s.find(sub): the leftmost occurrence of `sub` in `s`, if any. */
  function Find(s: seq<Byte>, sub: seq<Byte>): Option<nat> {
    FindFrom(s, sub, 0)
  }

  /** s.replace(sub, repl, 1): replaces the leftmost occurrence, or nothing. */
  function ReplaceFirst(s: seq<Byte>, sub: seq<Byte>, repl: seq<Byte>): seq<Byte> {
    match Find(s, sub)
    case None => s
    case Some(i) => s[..i] + repl + s[i + |sub|..]
  }

  /** s.replace(sub, "") for a non-empty `sub`: removes every occurrence, scanning left to right. */
  function RemoveAll(s: seq<Byte>, sub: seq<Byte>): (r: seq<Byte>)
    requires |sub| > 0
    ensures |r| <= |s|
    decreases |s|
  {
    if |sub| <= |s| && s[..|sub|] == sub then RemoveAll(s[|sub|..], sub)
    else if s == [] then []
    else [s[0]] + RemoveAll(s[1..], sub)
  }

  /** Removing a separator that cannot start inside the text leaves the text. */
  lemma {:induction false} RemoveAllFree(s: seq<Byte>, sub: seq<Byte>)
    requires |sub| > 0 && Free(s, sub[0])
    ensures RemoveAll(s, sub) == s
    decreases |s|
  {
    if s != [] {
      assert s[0] != sub[0];
      RemoveAllFree(s[1..], sub);
      assert s == [s[0]] + s[1..];
    }
  }
}
