/**
 * The source cursor of position.ts: an index into the text together with a
 * zero-based line and column, advanced in place as characters are consumed.
 */
module Positions {

  /** The observable state of a Position (its four fields). */
  datatype PosValue = PosValue(filename: string, index: int, line: int, column: int)

  /**
   * The state after `advance(c, delta)`: index and column move by `delta`;
   * consuming a newline then resets the column and moves to the next line.
   */
  function Advanced(p: PosValue, c: string, delta: int): (q: PosValue)
    ensures q.filename == p.filename
    ensures q.index == p.index + delta
    ensures c == "\n" ==> q.column == 0 && q.line == p.line + 1
    ensures c != "\n" ==> q.column == p.column + delta && q.line == p.line
  {
    var moved := p.(index := p.index + delta, column := p.column + delta);
    if c == "\n" then moved.(column := 0, line := moved.line + 1) else moved
  }

  class Position {
    var filename: string
    var index: int
    var line: int
    var column: int

    function Value(): PosValue
      reads this
    {
      PosValue(filename, index, line, column)
    }

    constructor (filename: string, index: int, line: int, column: int)
      ensures Value() == PosValue(filename, index, line, column)
    {
      this.filename := filename;
      this.index := index;
      this.line := line;
      this.column := column;
    }

    /** Updates this position in place and returns the same object. */
    method Advance(c: string, delta: int := 1) returns (self: Position)
      modifies this
      ensures self == this
      ensures Value() == Advanced(old(Value()), c, delta)
    {
      index := index + delta;
      column := column + delta;
      if c == "\n" {
        column := 0;
        line := line + 1;
      }
      self := this;
    }

    /** A new Position with the same four fields; later changes to either do not affect the other. */
    method Clone() returns (copy: Position)
      ensures fresh(copy)
      ensures copy.Value() == Value()
    {
      copy := new Position(filename, index, line, column);
    }
  }

  // ---------------------------------------------------------------------------
  // Advancing over a run of characters one at a time

  /** The position after consuming each character of `s` with `advance(c, 1)`. */
  function Walk(p: PosValue, s: string): PosValue {
    if s == [] then p else Advanced(Walk(p, s[..|s| - 1]), [s[|s| - 1]], 1)
  }

  /** Number of newline characters in `s`. */
  function Newlines(s: string): nat {
    if s == [] then 0 else Newlines(s[..|s| - 1]) + (if s[|s| - 1] == '\n' then 1 else 0)
  }

  /** Number of characters after the last newline of `s` (all of `s` if it has none). */
  function TrailingRun(s: string): nat {
    if s == [] || s[|s| - 1] == '\n' then 0 else TrailingRun(s[..|s| - 1]) + 1
  }

  /**
   * Consuming a run of characters moves the index by its length, the line by
   * the number of newlines in it, and leaves the column counting the
   * characters since the last newline (or added to the old column if there is
   * none).
   */
  lemma {:induction false} WalkTracksLines(p: PosValue, s: string)
    ensures Walk(p, s).filename == p.filename
    ensures Walk(p, s).index == p.index + |s|
    ensures Walk(p, s).line == p.line + Newlines(s)
    ensures Walk(p, s).column == if '\n' in s then TrailingRun(s) else p.column + |s|
  {
    if s != [] {
      var init := s[..|s| - 1];
      WalkTracksLines(p, init);
      assert '\n' in s <==> '\n' in init || s[|s| - 1] == '\n' by {
        assert s == init + [s[|s| - 1]];
      }
    }
  }

  /** Walking a run from the front: the first character is consumed first. */
  lemma {:induction false} WalkFront(p: PosValue, c: char, t: string)
    ensures Walk(p, [c] + t) == Walk(Advanced(p, [c], 1), t)
  {
    if t != [] {
      var init := t[..|t| - 1];
      assert ([c] + t)[..|[c] + t| - 1] == [c] + init;
      WalkFront(p, c, init);
    } else {
      assert [c] + t == [c];
      assert [c][..0] == [];
    }
  }
}
