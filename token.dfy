/**
 * token.ts: the token kinds the parser is written against, and the token
 * record with its `match` and `asString` members.
 */
module Tokens {
  import opened Wrappers
  import Decimal

  /** The numeric enum of token.ts; `Ordinal` gives the number JavaScript assigns each member. */
  datatype TokenType = BinOp | UnOp | Number | String | Ident | Keyword | Comment | EOF

  function Ordinal(t: TokenType): nat {
    match t
    case BinOp => 0
    case UnOp => 1
    case Number => 2
    case String => 3
    case Ident => 4
    case Keyword => 5
    case Comment => 6
    case EOF => 7
  }

  /** The enum member whose number is `n`, if any. */
  function TokenTypeOf(n: int): Option<TokenType> {
    if n == 0 then Some(BinOp)
    else if n == 1 then Some(UnOp)
    else if n == 2 then Some(Number)
    else if n == 3 then Some(String)
    else if n == 4 then Some(Ident)
    else if n == 5 then Some(Keyword)
    else if n == 6 then Some(Comment)
    else if n == 7 then Some(EOF)
    else None
  }

  /** A token's value: `null`, a string, or a number. */
  datatype TokenValue = NullValue | Str(s: string) | Num(x: real)

  /** Values whose JavaScript text is modelled: all but non-integral or huge numbers. */
  predicate Printable(v: TokenValue) {
    v.Num? ==> v.x == v.x.Floor as real && -1_000_000_000_000_000_000_000.0 < v.x < 1_000_000_000_000_000_000_000.0
  }

  /** The text `${v}` produces for a value. */
  function ValueText(v: TokenValue): string
    requires Printable(v)
  {
    match v
    case NullValue => "null"
    case Str(s) => s
    case Num(x) => Decimal.IntText(x.Floor)
  }

  /** A token as token.ts builds it: the constructor stores its two arguments unchanged. */
  datatype Token = Token(kind: TokenType, value: TokenValue) {

    /** `match(t, v)`: the token has exactly this kind and this value. */
    predicate Match(t: TokenType, v: TokenValue): (r: bool)
      ensures r <==> this == Token(t, v)
    {
      kind == t && value == v
    }

    /** `asString()`: `[<kind number>: <value>]`; the kind number is a single digit. */
    function AsString(): (s: string)
      requires Printable(value)
      ensures |s| == |ValueText(value)| + 5
      ensures s[0] == '[' && s[|s| - 1] == ']' && s[2..4] == ": "
    {
      var n := Ordinal(kind);
      assert Decimal.IntText(n) == [Decimal.DigitChar(n)];
      "[" + Decimal.IntText(n) + ": " + ValueText(value) + "]"
    }
  }

  /** Reads the kind back from the text `asString` produced. */
  function KindFromText(s: string): Option<TokenType> {
    if 5 <= |s| && s[0] == '[' && s[2..4] == ": " && Decimal.IsDigit(s[1])
    then TokenTypeOf((s[1] as int) - ('0' as int))
    else None
  }

  /** The text between the `": "` separator and the closing bracket. */
  function ValueFromText(s: string): string
    requires 5 <= |s|
  {
    s[4..|s| - 1]
  }

  lemma TokenTypeOfOrdinal(t: TokenType)
    ensures Ordinal(t) < 10 && TokenTypeOf(Ordinal(t)) == Some(t)
  {
  }

  /**
   * `asString` keeps the kind and the value text apart: both can be read back
   * from the string it returns.
   */
  lemma AsStringRoundTrip(t: Token)
    requires Printable(t.value)
    ensures |t.AsString()| >= 5
    ensures t.AsString()[|t.AsString()| - 1] == ']'
    ensures KindFromText(t.AsString()) == Some(t.kind)
    ensures ValueFromText(t.AsString()) == ValueText(t.value)
  {
    var n := Ordinal(t.kind);
    TokenTypeOfOrdinal(t.kind);
    assert Decimal.IntText(n) == [Decimal.DigitChar(n)];
    var s := t.AsString();
    assert s == ['['] + [Decimal.DigitChar(n)] + ": " + ValueText(t.value) + "]";
  }

  /** The text cannot tell `null` from the string "null": both print as `[k: null]`. */
  lemma NullAndStringNullPrintAlike(k: TokenType)
    ensures Token(k, NullValue).AsString() == Token(k, Str("null")).AsString()
  {
  }
}
