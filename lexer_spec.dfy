/**
 * The lexer of lexer.ts as pure functions of the text and a cursor value.
 * Each loop of the source becomes a function that carries the loop's
 * accumulator, so that the Lexer class in lexer.dfy can be proved against
 * it; the lemmas below state what the scanners and `tokenize` produce.
 *
 * The character classes come from strings.json, which is not part of this
 * model: they are the parameter `Classes`.
 */
module LexSpec {
  import opened Wrappers
  import opened Positions

  /** The lists of strings.json, as sets of strings (`includes` tests membership). */
  datatype Classes = Classes(
    logicalOp: set<string>,        // strings.logical_op
    comparisonOp2: set<string>,    // strings.comparison_op[1], two characters
    comparisonOp1: set<string>,    // strings.comparison_op[0], one character
    op: set<string>,               // strings.op
    symbols: set<string>,
    paren: set<string>,
    brackets: set<string>,
    braces: set<string>,
    digits: set<string>,
    quotes: set<string>,
    ident: set<string>,
    keywords: set<string>)

  /** The token kinds this revision of the lexer emits. */
  datatype Kind =
    | LogicalOp | CompOp | Operator | Symbol | Paren | Bracket | Brace
    | Number | String | Ident | Keyword | Comment | EOF

  /**
   * A token's value: `null` (EOF), a text, or a number. A number keeps its
   * digits and whether a dot was seen, which decides between parseFloat and
   * parseInt.
   */
  datatype LexValue = NullValue | Text(s: string) | NumberText(lexeme: string, isFloat: bool)

  /** A token with the clones of its left and (when one was given) right positions. */
  datatype LexToken = LexToken(kind: Kind, value: LexValue, left: PosValue, right: Option<PosValue>)

  // ---------------------------------------------------------------------------
  // The cursor

  /** JavaScript's `s.substr(start, length)`: a negative start counts from the end. */
  function Substr(s: string, start: int, length: int): (r: string)
    ensures 0 <= start && 0 <= length && start + length <= |s| ==> r == s[start..start + length]
    ensures 0 <= start < |s| && length == 1 ==> r == [s[start]]
    ensures 0 <= start < |s| && 0 < length ==> 0 < |r| && r[0] == s[start]
    ensures |s| <= start ==> r == []
    ensures 0 <= length ==> |r| <= length
    ensures 0 <= start <= |s| ==> start + |r| <= |s|
  {
    var from := if start < 0 then (if |s| + start < 0 then 0 else |s| + start)
                else if |s| < start then |s| else start;
    var count := if length < 0 then 0 else if |s| - from < length then |s| - from else length;
    s[from..from + count]
  }

  /** `at()`: the character under the cursor, or "" past the end. */
  function CharAt(code: string, p: PosValue): string {
    Substr(code, p.index, 1)
  }

  /** `yum(delta)`: advance the cursor, passing `advance` the character it was on. */
  function Yummed(code: string, p: PosValue, delta: int): PosValue {
    Advanced(p, CharAt(code, p), delta)
  }

  /**
   * The cursor after the constructor: it starts at index -1, line 0,
   * column -1 and takes one step. At index -1 `substr` reads the LAST
   * character, so a text that ends with a newline starts on line 1.
   */
  function Start(filename: string, code: string): (p: PosValue)
    ensures p.filename == filename && p.index == 0 && p.column == 0
    ensures p.line == if code != [] && code[|code| - 1] == '\n' then 1 else 0
  {
    Yummed(code, PosValue(filename, -1, 0, -1), 1)
  }

  // ---------------------------------------------------------------------------
  // Scanners that collect characters one at a time

  /** The condition of the three collecting loops. */
  datatype RunKind =
    | CommentUntil(close: string)                     // makeComment, makeMultilineComment
    | StringUntil(quote: string)                      // makeString
    | IdentChars(ident: set<string>, digits: set<string>)  // makeIdent

  predicate Continues(code: string, i: int, k: RunKind) {
    match k
    case CommentUntil(close) => Substr(code, i, 2) != close
    case StringUntil(quote) => Substr(code, i, 1) != quote
    case IdentChars(ident, digits) => Substr(code, i, 1) in ident || Substr(code, i, 1) in digits
  }

  /** `while (notEof() && <condition>) { acc += at(); yum(); }` */
  function Run(code: string, p: PosValue, k: RunKind, acc: string): (string, PosValue)
    decreases |code| - p.index
  {
    if p.index < |code| && Continues(code, p.index, k)
    then Run(code, Yummed(code, p, 1), k, acc + CharAt(code, p))
    else (acc, p)
  }

  /** makeComment / makeMultilineComment: skip the two opening characters, collect up to `close`. */
  function ScanComment(code: string, p: PosValue, close: string): (LexToken, PosValue) {
    var (text, q) := Run(code, Yummed(code, p, 2), CommentUntil(close), "");
    (LexToken(Comment, Text(text), p, Some(q)), q)
  }

  /** makeString: skip the opening quote, collect up to the same quote character. */
  function ScanString(code: string, p: PosValue): (LexToken, PosValue) {
    var (text, q) := Run(code, Yummed(code, p, 1), StringUntil(CharAt(code, p)), "");
    (LexToken(String, Text(text), p, Some(q)), q)
  }

  /** makeIdent: collect identifier and digit characters, step back one, look the word up. */
  function ScanIdent(cls: Classes, code: string, p: PosValue): (LexToken, PosValue) {
    var (word, q) := Run(code, p, IdentChars(cls.ident, cls.digits), "");
    var q' := Yummed(code, q, -1);
    (LexToken(if word in cls.keywords then Keyword else Ident, Text(word), p, Some(q')), q')
  }

  /** The loop of makeNumber: digits and dots, breaking at a second dot. */
  function NumberLoop(cls: Classes, code: string, p: PosValue, acc: string, isFloat: bool): (string, bool, PosValue)
    decreases |code| - p.index
  {
    if p.index < |code| && (CharAt(code, p) in cls.digits || CharAt(code, p) == ".") then
      if CharAt(code, p) == "." then
        if isFloat then (acc, isFloat, p)
        else NumberLoop(cls, code, Yummed(code, p, 1), acc + ".", true)
      else NumberLoop(cls, code, Yummed(code, p, 1), acc + CharAt(code, p), isFloat)
    else (acc, isFloat, p)
  }

  /** makeNumber: the loop, then one step back. */
  function ScanNumber(cls: Classes, code: string, p: PosValue): (LexToken, PosValue) {
    var (digits, isFloat, q) := NumberLoop(cls, code, p, "", false);
    var q' := Yummed(code, q, -1);
    (LexToken(Number, NumberText(digits, isFloat), p, Some(q')), q')
  }

  // ---------------------------------------------------------------------------
  // One iteration of tokenize

  /**
   * The body of tokenize's loop up to (not including) its final `yum()`:
   * the token it pushes, if any, and the cursor it leaves.
   */
  function Scan(cls: Classes, code: string, p: PosValue): (r: (Option<LexToken>, PosValue))
    requires p.index < |code|
    ensures p.index <= r.1.index <= |code|
    ensures r.0.Some? ==> r.0.value.left == p && r.0.value.kind != EOF
    ensures r.0.None? ==> r.1 == p
  {
    var two := Substr(code, p.index, 2);
    var one := CharAt(code, p);
    if two == "//" then
      RunAdvances(code, Yummed(code, p, 2), CommentUntil("\r\n"), "");
      var (t, q) := ScanComment(code, p, "\r\n"); (Some(t), q)
    else if two == "/*" then
      RunAdvances(code, Yummed(code, p, 2), CommentUntil("*/"), "");
      var (t, q) := ScanComment(code, p, "*/"); (Some(t), q)
    else if two in cls.logicalOp then (Some(LexToken(LogicalOp, Text(two), p, None)), Yummed(code, p, 1))
    else if two in cls.comparisonOp2 then (Some(LexToken(CompOp, Text(two), p, None)), Yummed(code, p, 1))
    else if one in cls.comparisonOp1 then (Some(LexToken(CompOp, Text(one), p, None)), p)
    else if one in cls.op then (Some(LexToken(Operator, Text(one), p, None)), p)
    else if one in cls.symbols then (Some(LexToken(Symbol, Text(one), p, None)), p)
    else if one in cls.paren then (Some(LexToken(Paren, Text(one), p, None)), p)
    else if one in cls.brackets then (Some(LexToken(Bracket, Text(one), p, None)), p)
    else if one in cls.braces then (Some(LexToken(Brace, Text(one), p, None)), p)
    else if one in cls.digits then
      NumberLoopAdvances(cls, code, p, "", false);
      var (t, q) := ScanNumber(cls, code, p); (Some(t), q)
    else if one in cls.quotes then
      RunAdvances(code, Yummed(code, p, 1), StringUntil(one), "");
      var (t, q) := ScanString(code, p); (Some(t), q)
    else if one in cls.ident then
      RunAdvances(code, p, IdentChars(cls.ident, cls.digits), "");
      var (t, q) := ScanIdent(cls, code, p); (Some(t), q)
    else (None, p)
  }

  /** `while (notEof()) { <Scan>; yum(); }` then the EOF token at the final cursor. */
  function LexLoop(cls: Classes, code: string, p: PosValue, acc: seq<LexToken>): (r: seq<LexToken>)
    ensures |acc| < |r| && r[|r| - 1].kind == EOF
    decreases |code| - p.index
  {
    if p.index < |code| then
      var (t, q) := Scan(cls, code, p);
      LexLoop(cls, code, Yummed(code, q, 1), acc + (if t.Some? then [t.value] else []))
    else acc + [LexToken(EOF, NullValue, p, None)]
  }

  /** `new Lexer(filename, code).tokenize()`. */
  function Tokenize(cls: Classes, filename: string, code: string): (r: seq<LexToken>)
    ensures 0 < |r| && r[|r| - 1].kind == EOF
  {
    LexLoop(cls, code, Start(filename, code), [])
  }

  // ---------------------------------------------------------------------------
  // Progress of the loops (used for termination of tokenize)

  lemma {:induction false} RunAdvances(code: string, p: PosValue, k: RunKind, acc: string)
    ensures p.index <= Run(code, p, k, acc).1.index
    ensures p.index <= |code| ==> Run(code, p, k, acc).1.index <= |code|
    ensures p.index < |code| && Continues(code, p.index, k) ==> p.index < Run(code, p, k, acc).1.index
    decreases |code| - p.index
  {
    if p.index < |code| && Continues(code, p.index, k) {
      RunAdvances(code, Yummed(code, p, 1), k, acc + CharAt(code, p));
    }
  }

  lemma {:induction false} NumberLoopAdvances(cls: Classes, code: string, p: PosValue, acc: string, isFloat: bool)
    ensures p.index <= NumberLoop(cls, code, p, acc, isFloat).2.index
    ensures p.index <= |code| ==> NumberLoop(cls, code, p, acc, isFloat).2.index <= |code|
    ensures p.index < |code| && CharAt(code, p) in cls.digits && !isFloat ==> p.index < NumberLoop(cls, code, p, acc, isFloat).2.index
    decreases |code| - p.index
  {
    if p.index < |code| && (CharAt(code, p) in cls.digits || CharAt(code, p) == ".") {
      if CharAt(code, p) == "." {
        if !isFloat {
          NumberLoopAdvances(cls, code, Yummed(code, p, 1), acc + ".", true);
        }
      } else {
        NumberLoopAdvances(cls, code, Yummed(code, p, 1), acc + CharAt(code, p), isFloat);
      }
    }
  }
}
