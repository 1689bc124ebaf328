/**
 * The Lexer class of lexer.ts. Its cursor is a Position object that the
 * methods advance in place; every method is proved against the function of
 * LexSpec that describes the same loop, so the properties proved there
 * (LexProperties) hold of what the methods return.
 */
module Lexing {
  import opened Wrappers
  import opened Positions
  import opened LexSpec
  import LexProperties

  class Lexer {
    const filename: string
    const code: string
    /** The character classes of strings.json. */
    const classes: Classes
    const pos: Position

    /** Starts one step before the text and takes one step onto its first character. */
    constructor(filename: string, code: string, classes: Classes)
      ensures this.filename == filename && this.code == code && this.classes == classes
      ensures fresh(pos)
      ensures pos.Value() == Start(filename, code)
    {
      this.filename := filename;
      this.code := code;
      this.classes := classes;
      pos := new Position(filename, -1, 0, -1);
      new;
      Yum();
    }

    /** The `range` characters at the cursor; fewer near the end, none past it. */
    function At(range: int := 1): (s: string)
      reads pos
      ensures 0 <= pos.index && 0 <= range && pos.index + range <= |code| ==> s == code[pos.index..pos.index + range]
      ensures |code| <= pos.index ==> s == ""
      ensures 0 <= range ==> |s| <= range
    {
      Substr(code, pos.index, range)
    }

    /** Advances the cursor by `delta`, handing `advance` the character it leaves. */
    method Yum(delta: int := 1)
      modifies pos
      ensures pos.Value() == Yummed(code, old(pos.Value()), delta)
    {
      var c := At();
      var _ := pos.Advance(c, delta);
    }

    /** Not at the end: exactly when a character lies under a cursor that has not gone before the start. */
    predicate NotEof(): (r: bool)
      reads pos
      ensures 0 <= pos.index ==> (r <==> At() != "")
    {
      pos.index < |code|
    }

    /**
     * The loop shared by makeComment, makeMultilineComment, makeString and
     * makeIdent: collect the character at the cursor and step on, while the
     * text lasts and the loop's condition holds.
     */
    method Collect(k: RunKind) returns (s: string)
      modifies pos
      ensures (s, pos.Value()) == Run(code, old(pos.Value()), k, "")
    {
      s := "";
      while NotEof() && Continues(code, pos.index, k)
        invariant Run(code, pos.Value(), k, s) == Run(code, old(pos.Value()), k, "")
        decreases |code| - pos.index
      {
        s := s + At();
        Yum();
      }
    }

    /** makeComment: a "//" comment, up to "\r\n". */
    method MakeComment() returns (t: LexToken)
      modifies pos
      ensures (t, pos.Value()) == ScanComment(code, old(pos.Value()), "\r\n")
    {
      var posLeft := pos.Clone();
      Yum(2);
      var str := Collect(CommentUntil("\r\n"));
      var posRight := pos.Clone();
      t := LexToken(Comment, Text(str), posLeft.Value(), Some(posRight.Value()));
    }

    // makeMultilineComment: a block comment, up to its closing pair.
    method MakeMultilineComment() returns (t: LexToken)
      modifies pos
      ensures (t, pos.Value()) == ScanComment(code, old(pos.Value()), "*/")
    {
      var posLeft := pos.Clone();
      Yum(2);
      var str := Collect(CommentUntil("*/"));
      var posRight := pos.Clone();
      t := LexToken(Comment, Text(str), posLeft.Value(), Some(posRight.Value()));
    }

    /** makeNumber: digits and at most one dot, then one step back. */
    method MakeNumber() returns (t: LexToken)
      modifies pos
      ensures (t, pos.Value()) == ScanNumber(classes, code, old(pos.Value()))
    {
      var posLeft := pos.Clone();
      var numStr := "";
      var float := false;
      while NotEof() && (At() in classes.digits || At() == ".")
        invariant NumberLoop(classes, code, pos.Value(), numStr, float) == NumberLoop(classes, code, old(pos.Value()), "", false)
        invariant posLeft.Value() == old(pos.Value())
        decreases |code| - pos.index
      {
        if At() == "." {
          if float {
            break;
          }
          numStr := numStr + ".";
          float := true;
        } else {
          numStr := numStr + At();
        }
        Yum();
      }
      assert NumberLoop(classes, code, pos.Value(), numStr, float) == (numStr, float, pos.Value());
      Yum(-1);
      var posRight := pos.Clone();
      t := LexToken(Number, NumberText(numStr, float), posLeft.Value(), Some(posRight.Value()));
    }

    /** makeString: from one quote character up to the same character. */
    method MakeString() returns (t: LexToken)
      modifies pos
      ensures (t, pos.Value()) == ScanString(code, old(pos.Value()))
    {
      var posLeft := pos.Clone();
      var quote := At();
      Yum();
      var str := Collect(StringUntil(quote));
      var posRight := pos.Clone();
      t := LexToken(String, Text(str), posLeft.Value(), Some(posRight.Value()));
    }

    /** makeIdent: identifier and digit characters, one step back, then the keyword lookup. */
    method MakeIdent() returns (t: LexToken)
      modifies pos
      ensures (t, pos.Value()) == ScanIdent(classes, code, old(pos.Value()))
    {
      var posLeft := pos.Clone();
      var ident := Collect(IdentChars(classes.ident, classes.digits));
      Yum(-1);
      var posRight := pos.Clone();
      if ident in classes.keywords {
        t := LexToken(Keyword, Text(ident), posLeft.Value(), Some(posRight.Value()));
      } else {
        t := LexToken(Ident, Text(ident), posLeft.Value(), Some(posRight.Value()));
      }
    }

    /**
     * The body of tokenize's loop up to its final yum: classify the text at
     * the cursor in priority order and build the token, if any.
     */
    method ScanOne() returns (emitted: Option<LexToken>)
      requires NotEof()
      modifies pos
      ensures (emitted, pos.Value()) == Scan(classes, code, old(pos.Value()))
    {
      emitted := None;
      if At(2) == "//" {
        var t := MakeComment();
        emitted := Some(t);
      } else if At(2) == "/*" {
        var t := MakeMultilineComment();
        emitted := Some(t);
      } else if At(2) in classes.logicalOp {
        var left := pos.Clone();
        emitted := Some(LexToken(LogicalOp, Text(At(2)), left.Value(), None));
        Yum();
      } else if At(2) in classes.comparisonOp2 {
        var left := pos.Clone();
        emitted := Some(LexToken(CompOp, Text(At(2)), left.Value(), None));
        Yum();
      } else if At() in classes.comparisonOp1 {
        var left := pos.Clone();
        emitted := Some(LexToken(CompOp, Text(At()), left.Value(), None));
      } else if At() in classes.op {
        var left := pos.Clone();
        emitted := Some(LexToken(Operator, Text(At()), left.Value(), None));
      } else if At() in classes.symbols {
        var left := pos.Clone();
        emitted := Some(LexToken(Symbol, Text(At()), left.Value(), None));
      } else if At() in classes.paren {
        var left := pos.Clone();
        emitted := Some(LexToken(Paren, Text(At()), left.Value(), None));
      } else if At() in classes.brackets {
        var left := pos.Clone();
        emitted := Some(LexToken(Bracket, Text(At()), left.Value(), None));
      } else if At() in classes.braces {
        var left := pos.Clone();
        emitted := Some(LexToken(Brace, Text(At()), left.Value(), None));
      } else if At() in classes.digits {
        var t := MakeNumber();
        emitted := Some(t);
      } else if At() in classes.quotes {
        var t := MakeString();
        emitted := Some(t);
      } else if At() in classes.ident {
        var t := MakeIdent();
        emitted := Some(t);
      }
    }

    /**
     * tokenize: classify the text at the cursor in priority order, push the
     * token (unknown characters push nothing), step on; finally push EOF.
     */
    method Tokenize() returns (tokens: seq<LexToken>)
      modifies pos
      ensures tokens == LexLoop(classes, code, old(pos.Value()), [])
      ensures LexProperties.EndsWithEof(tokens, code)
    {
      tokens := [];
      while NotEof()
        invariant LexLoop(classes, code, pos.Value(), tokens) == LexLoop(classes, code, old(pos.Value()), [])
        invariant LexProperties.NoEof(tokens)
        decreases |code| - pos.index
      {
        ghost var p := pos.Value();
        var emitted := ScanOne();
        LexProperties.LexLoopStep(classes, code, p, tokens);
        tokens := tokens + (if emitted.Some? then [emitted.value] else []);
        Yum();
      }
      var left := pos.Clone();
      tokens := tokens + [LexToken(EOF, NullValue, left.Value(), None)];
      LexProperties.LexLoopEndsWithEof(classes, code, old(pos.Value()), []);
    }
  }
}
