/**
 * parser.ts: a recursive-descent parser over a token list that it consumes
 * from the front with `shift()`. The functions below describe each parse
 * method as a function from the list before the call to the outcome and the
 * list after it; the Parser class is proved against them.
 *
 * Once the list is exhausted, `at()` and `yum()` return `undefined`, and
 * reading `.type` from it throws a TypeError: that outcome is `Threw`.
 */
module Parsing {
  import opened Wrappers
  import opened Tokens
  import General

  /** The additive level stores the operator's value, the multiplicative level the whole token. */
  datatype Operator = OperatorText(text: TokenValue) | OperatorToken(token: Token)

  /** The object literals the parser builds. */
  datatype Ast =
    | NumericLiteral(value: TokenValue)
    | StringLiteral(value: TokenValue)
    | Literal(value: TokenValue)
    | Identifier(value: TokenValue)
    | BinaryExpr(left: Option<Ast>, operator: Operator, right: Option<Ast>)

  /** A parse method returns an AST or `undefined` (None), or throws. */
  datatype Outcome = Parsed(ast: Option<Ast>) | Threw

  const LiteralWords: seq<TokenValue> := [Str("undefined"), Str("null"), Str("true"), Str("false")]
  const MultiplicativeOps: seq<TokenValue> := [Str("*"), Str("/"), Str("%")]
  const AdditiveOps: seq<TokenValue> := [Str("+"), Str("-")]

  // ---------------------------------------------------------------------------
  // The parse methods as functions of the token list

  /** What parseLiteral makes of the token it consumed. */
  function LiteralOf(t: Token): Option<Ast> {
    if t.kind == Number then Some(NumericLiteral(t.value))
    else if t.kind == String then Some(StringLiteral(t.value))
    else if t.kind == Ident then
      if t.value in LiteralWords then Some(Literal(t.value)) else Some(Identifier(t.value))
    else None
  }

  function ParseLiteralSpec(ts: seq<Token>): (Outcome, seq<Token>) {
    if ts == [] then (Threw, [])
    else (Parsed(LiteralOf(ts[0])), ts[1..])
  }

  /** The `while` test of a level: not at EOF, a BinOp token, one of the level's operators. */
  predicate OperatorAhead(ts: seq<Token>, ops: seq<TokenValue>)
    requires ts != []
  {
    ts[0].kind != EOF && ts[0].kind == BinOp && ts[0].value in ops
  }

  function ParseMultiplicativeSpec(ts: seq<Token>): (Outcome, seq<Token>) {
    var (left, rest) := ParseLiteralSpec(ts);
    if left.Threw? || rest == [] then (Threw, rest)
    else if OperatorAhead(rest, MultiplicativeOps) then
      var (right, rest') := ParseLiteralSpec(rest[1..]);
      if right.Threw? then (Threw, rest')
      else (Parsed(Some(BinaryExpr(left.ast, OperatorToken(rest[0]), right.ast))), rest')
    else (left, rest)
  }

  function ParseAdditiveSpec(ts: seq<Token>): (Outcome, seq<Token>) {
    var (left, rest) := ParseMultiplicativeSpec(ts);
    if left.Threw? || rest == [] then (Threw, rest)
    else if OperatorAhead(rest, AdditiveOps) then
      var (right, rest') := ParseMultiplicativeSpec(rest[1..]);
      if right.Threw? then (Threw, rest')
      else (Parsed(Some(BinaryExpr(left.ast, OperatorText(rest[0].value), right.ast))), rest')
    else (left, rest)
  }

  // ---------------------------------------------------------------------------
  // The Parser class

  class Parser {
    const filename: string
    var tokens: seq<Token>

    constructor(filename: string, tokens: seq<Token>)
      ensures this.filename == filename && this.tokens == tokens
    {
      this.filename := filename;
      this.tokens := tokens;
    }

    /** The first token, or `undefined` once the list is exhausted; the list is only read. */
    function At(): (t: Option<Token>)
      reads this
      ensures tokens != [] ==> t == Some(tokens[0])
      ensures tokens == [] ==> t == None
    {
      if tokens == [] then None else Some(tokens[0])
    }

    /** `shift()`: removes and returns the first token; the rest of the list is kept in order. */
    method Yum() returns (t: Option<Token>)
      modifies this
      ensures old(tokens) != [] ==> t == Some(old(tokens)[0]) && tokens == old(tokens)[1..]
      ensures old(tokens) == [] ==> t == None && tokens == []
    {
      if tokens == [] {
        t := None;
      } else {
        t := Some(tokens[0]);
        tokens := tokens[1..];
      }
    }

    /** `at().type != EOF`; on an exhausted list the call throws, so callers test for that first. */
    predicate NotEof(): (r: bool)
      requires tokens != []
      reads this
      ensures r <==> At().value.kind != EOF
    {
      tokens[0].kind != EOF
    }

    method Parse() returns (r: Outcome)
      modifies this
      ensures (r, tokens) == ParseAdditiveSpec(old(tokens))
    {
      r := ParseExpr();
    }

    method ParseExpr() returns (r: Outcome)
      modifies this
      ensures (r, tokens) == ParseAdditiveSpec(old(tokens))
    {
      r := ParseAdditiveExpr();
    }

    /** One multiplicative expression, then at most one `+`/`-` and another: the `while` returns on its first pass. */
    method ParseAdditiveExpr() returns (r: Outcome)
      modifies this
      ensures (r, tokens) == ParseAdditiveSpec(old(tokens))
    {
      var operators := AdditiveOps;
      var left := ParseMultiplicativeExpr();
      if left.Threw? {
        return Threw;
      }
      if tokens == [] {
        return Threw;
      }
      if NotEof() && At().value.kind == BinOp && At().value.value in operators {
        var operator := Yum();
        var right := ParseMultiplicativeExpr();
        if right.Threw? {
          return Threw;
        }
        return Parsed(Some(BinaryExpr(left.ast, OperatorText(operator.value.value), right.ast)));
      }
      return left;
    }

    /** One literal, then at most one `*`, `/` or `%` and another literal. */
    method ParseMultiplicativeExpr() returns (r: Outcome)
      modifies this
      ensures (r, tokens) == ParseMultiplicativeSpec(old(tokens))
    {
      var operators := MultiplicativeOps;
      var left := ParseLiteral();
      if left.Threw? {
        return Threw;
      }
      if tokens == [] {
        return Threw;
      }
      if NotEof() && At().value.kind == BinOp && At().value.value in operators {
        var operator := Yum();
        var right := ParseLiteral();
        if right.Threw? {
          return Threw;
        }
        return Parsed(Some(BinaryExpr(left.ast, OperatorToken(operator.value), right.ast)));
      }
      return left;
    }

    /** Consumes one token and classifies it; any other kind gives `undefined`. */
    method ParseLiteral() returns (r: Outcome)
      modifies this
      ensures (r, tokens) == ParseLiteralSpec(old(tokens))
    {
      var token := Yum();
      if token.None? {
        return Threw;
      }
      var t := token.value;
      if t.kind == Number {
        r := Parsed(Some(NumericLiteral(t.value)));
      } else if t.kind == String {
        r := Parsed(Some(StringLiteral(t.value)));
      } else if t.kind == Ident {
        var isLiteral := General.Either(t.value, LiteralWords);
        if isLiteral {
          r := Parsed(Some(Literal(t.value)));
        } else {
          r := Parsed(Some(Identifier(t.value)));
        }
      } else {
        r := Parsed(None);
      }
    }
  }

  // ---------------------------------------------------------------------------
  // Properties

  /** The token a literal node came from. */
  function TokenOf(a: Ast): Token
    requires !a.BinaryExpr?
  {
    match a
    case NumericLiteral(v) => Token(Number, v)
    case StringLiteral(v) => Token(String, v)
    case Literal(v) => Token(Ident, v)
    case Identifier(v) => Token(Ident, v)
  }

  /**
   * parseLiteral classifies: Number, String and Ident tokens give a node the
   * token can be read back from, an Ident is a Literal exactly when its
   * value is one of undefined/null/true/false, and every other kind gives
   * `undefined`.
   */
  lemma LiteralClassification(t: Token)
    ensures LiteralOf(t).Some? <==> t.kind in {Number, String, Ident}
    ensures LiteralOf(t).Some? ==> !LiteralOf(t).value.BinaryExpr? && TokenOf(LiteralOf(t).value) == t
    ensures t.kind == Ident ==> (LiteralOf(t).value.Literal? <==> t.value in LiteralWords)
  {
  }

  /** parseLiteral consumes exactly one token, and throws only on an exhausted list. */
  lemma ParseLiteralConsumesOne(ts: seq<Token>)
    ensures ts != [] ==> ParseLiteralSpec(ts) == (Parsed(LiteralOf(ts[0])), ts[1..])
    ensures ParseLiteralSpec(ts).0.Threw? <==> ts == []
  {
  }

  /** The number of tokens a parse result was built from: one per literal position, one per operator. */
  function Width(o: Option<Ast>): nat {
    match o
    case Some(BinaryExpr(l, _, r)) => Width(l) + 1 + Width(r)
    case _ => 1
  }

  /** A literal position: a literal node or `undefined`. */
  predicate IsLeaf(o: Option<Ast>) {
    o.None? || !o.value.BinaryExpr?
  }

  /** What parseMultiplicativeExpr can return: a leaf, or one `*`, `/`, `%` token between two leaves. */
  predicate MultiplicativeShape(o: Option<Ast>) {
    IsLeaf(o)
    || (o.value.BinaryExpr? && IsLeaf(o.value.left) && IsLeaf(o.value.right)
        && o.value.operator.OperatorToken? && o.value.operator.token.kind == BinOp
        && o.value.operator.token.value in MultiplicativeOps)
  }

  /** What parseAdditiveExpr can return: a multiplicative shape, or one `+`/`-` value between two of them. */
  predicate AdditiveShape(o: Option<Ast>) {
    MultiplicativeShape(o)
    || (o.Some? && o.value.BinaryExpr? && MultiplicativeShape(o.value.left) && MultiplicativeShape(o.value.right)
        && o.value.operator.OperatorText? && o.value.operator.text in AdditiveOps)
  }

  /**
   * parseMultiplicativeExpr folds at most one operator, consumes exactly
   * the tokens its result was built from, and throws only once the list is
   * exhausted.
   */
  lemma MultiplicativeFoldsOnce(ts: seq<Token>)
    ensures var (o, rest) := ParseMultiplicativeSpec(ts);
      && (o.Parsed? ==> MultiplicativeShape(o.ast) && Width(o.ast) <= |ts| && rest == ts[Width(o.ast)..])
      && (o.Threw? ==> rest == [])
  {
    if ts != [] && ts[1..] != [] && OperatorAhead(ts[1..], MultiplicativeOps) && ts[1..][1..] != [] {
      assert ts[1..][1..][1..] == ts[3..];
    }
  }

  /**
   * parseAdditiveExpr folds at most one `+` or `-` between two
   * multiplicative results, consumes exactly the tokens its result was
   * built from, and throws only once the list is exhausted.
   */
  lemma AdditiveFoldsOnce(ts: seq<Token>)
    ensures var (o, rest) := ParseAdditiveSpec(ts);
      && (o.Parsed? ==> AdditiveShape(o.ast) && Width(o.ast) <= |ts| && rest == ts[Width(o.ast)..])
      && (o.Threw? ==> rest == [])
  {
    MultiplicativeFoldsOnce(ts);
    var (left, rest) := ParseMultiplicativeSpec(ts);
    if left.Parsed? && rest != [] && OperatorAhead(rest, AdditiveOps) {
      MultiplicativeFoldsOnce(rest[1..]);
      var (right, rest') := ParseMultiplicativeSpec(rest[1..]);
      if right.Parsed? {
        var w := Width(left.ast);
        assert rest[1..] == ts[w + 1..];
        assert rest' == ts[w + 1 + Width(right.ast)..];
      }
    }
  }

  function NumberToken(x: real): Token { Token(Number, Num(x)) }
  function BinOpToken(s: string): Token { Token(BinOp, Str(s)) }
  const Eof: Token := Token(EOF, NullValue)

  /** `1 + 2 + 3` parses as `1 + 2` and leaves `+ 3` (with the EOF) unconsumed. */
  lemma ChainedAdditionStopsAfterOne()
    ensures ParseAdditiveSpec([NumberToken(1.0), BinOpToken("+"), NumberToken(2.0), BinOpToken("+"), NumberToken(3.0), Eof])
      == (Parsed(Some(BinaryExpr(Some(NumericLiteral(Num(1.0))), OperatorText(Str("+")), Some(NumericLiteral(Num(2.0)))))),
          [BinOpToken("+"), NumberToken(3.0), Eof])
  {
    var ts := [NumberToken(1.0), BinOpToken("+"), NumberToken(2.0), BinOpToken("+"), NumberToken(3.0), Eof];
    assert ts[1..][1..] == [NumberToken(2.0), BinOpToken("+"), NumberToken(3.0), Eof];
    assert ts[1..][1..][1..] == [BinOpToken("+"), NumberToken(3.0), Eof];
  }

  /** `2 * 3 / 4` at the top level parses as `2 * 3` and leaves `/ 4` unconsumed. */
  lemma ChainedProductStopsAfterOne()
    ensures ParseAdditiveSpec([NumberToken(2.0), BinOpToken("*"), NumberToken(3.0), BinOpToken("/"), NumberToken(4.0), Eof])
      == (Parsed(Some(BinaryExpr(Some(NumericLiteral(Num(2.0))), OperatorToken(BinOpToken("*")), Some(NumericLiteral(Num(3.0)))))),
          [BinOpToken("/"), NumberToken(4.0), Eof])
  {
    var ts := [NumberToken(2.0), BinOpToken("*"), NumberToken(3.0), BinOpToken("/"), NumberToken(4.0), Eof];
    assert ts[1..][1..] == [NumberToken(3.0), BinOpToken("/"), NumberToken(4.0), Eof];
    assert ts[1..][1..][1..] == [BinOpToken("/"), NumberToken(4.0), Eof];
  }

  /**
   * A list holding only EOF throws: parseLiteral consumes the EOF token and
   * the next `notEof()` reads `.type` of `undefined`.
   */
  lemma EofAloneThrows()
    ensures ParseAdditiveSpec([Eof]) == (Threw, [])
  {
  }

  /** A number followed by EOF parses to that number and leaves the EOF. */
  lemma SingleNumber(x: real)
    ensures ParseAdditiveSpec([NumberToken(x), Eof]) == (Parsed(Some(NumericLiteral(Num(x)))), [Eof])
  {
    assert [NumberToken(x), Eof][1..] == [Eof];
  }
}
