/**
 * The tape of the Turing machine (dataclass `Tape` of altturing.py): the
 * absolute bounds `begin` and `end` (inclusive), the head position and the
 * cell contents, where cell `p` is `content[p - begin]`.
 */
module TuringTape {
  import opened Text

  datatype TapeValue = TapeValue(begin: int, end: int, pointer: int, content: seq<Byte>) {
    /** The content holds one character per cell from `begin` to `end`. */
    predicate Consistent() {
      |content| == end - begin + 1
    }

    /** The head is on a stored cell. */
    predicate Covers() {
      begin <= pointer <= end
    }
  }

  class Tape {
    var begin: int
    var end: int
    var pointer: int
    var content: seq<Byte>

    constructor (begin: int, end: int, pointer: int, content: seq<Byte>)
      ensures Value() == TapeValue(begin, end, pointer, content)
    {
      this.begin := begin;
      this.end := end;
      this.pointer := pointer;
      this.content := content;
    }

    function Value(): TapeValue
      reads this
    {
      TapeValue(begin, end, pointer, content)
    }
  }
}
