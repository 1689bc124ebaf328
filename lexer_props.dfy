/**
 * What `tokenize` and its scanners produce, stated about the functions of
 * LexSpec: the EOF terminator, the priority order of the character classes,
 * silent skipping, and the text each scanner captures.
 */
module LexProperties {
  import opened Wrappers
  import opened Positions
  import opened LexSpec

  // ---------------------------------------------------------------------------
  // The token list always ends with the one EOF token

  predicate NoEof(ts: seq<LexToken>) {
    forall k :: 0 <= k < |ts| ==> ts[k].kind != EOF
  }

  /** The last token is EOF with value null and no right position, at or past the end of the text; no other is EOF. */
  predicate EndsWithEof(ts: seq<LexToken>, code: string) {
    && 0 < |ts|
    && ts[|ts| - 1].kind == EOF && ts[|ts| - 1].value == NullValue && ts[|ts| - 1].right == None
    && |code| <= ts[|ts| - 1].left.index
    && NoEof(ts[..|ts| - 1])
  }

  /** One iteration of tokenize's loop. */
  lemma LexLoopStep(cls: Classes, code: string, p: PosValue, acc: seq<LexToken>)
    requires p.index < |code|
    ensures var sc := Scan(cls, code, p);
      LexLoop(cls, code, p, acc)
      == LexLoop(cls, code, Yummed(code, sc.1, 1), acc + (if sc.0.Some? then [sc.0.value] else []))
  {
  }

  lemma {:induction false} LexLoopEndsWithEof(cls: Classes, code: string, p: PosValue, acc: seq<LexToken>)
    requires NoEof(acc)
    ensures var r := LexLoop(cls, code, p, acc);
      EndsWithEof(r, code) && |acc| < |r| && r[..|acc|] == acc
    decreases |code| - p.index
  {
    if p.index < |code| {
      var sc := Scan(cls, code, p);
      var acc' := acc + (if sc.0.Some? then [sc.0.value] else []);
      assert NoEof(acc');
      LexLoopEndsWithEof(cls, code, Yummed(code, sc.1, 1), acc');
      LexLoopStep(cls, code, p, acc);
      var r := LexLoop(cls, code, p, acc);
      assert r[..|acc|] == r[..|acc'|][..|acc|];
    } else {
      var r := LexLoop(cls, code, p, acc);
      assert r[..|r| - 1] == acc;
    }
  }

  /**
   * `tokenize` always returns at least one token; the last is EOF with value
   * null at or past the end of the text, and no other token is EOF.
   */
  lemma TokenizeEndsWithEof(cls: Classes, filename: string, code: string)
    ensures EndsWithEof(Tokenize(cls, filename, code), code)
  {
    LexLoopEndsWithEof(cls, code, Start(filename, code), []);
  }

  // ---------------------------------------------------------------------------
  // The priority order of the classes, as a table

  /** One row of the classification: how many characters to look at, which texts match, the kind produced. */
  datatype Rule = Rule(width: nat, texts: set<string>, kind: Kind)

  /** The order in which tokenize tries the classes. */
  function Rules(cls: Classes): seq<Rule> {
    [ Rule(2, {"//"}, Comment),
      Rule(2, {"/*"}, Comment),
      Rule(2, cls.logicalOp, LogicalOp),
      Rule(2, cls.comparisonOp2, CompOp),
      Rule(1, cls.comparisonOp1, CompOp),
      Rule(1, cls.op, Operator),
      Rule(1, cls.symbols, Symbol),
      Rule(1, cls.paren, Paren),
      Rule(1, cls.brackets, Bracket),
      Rule(1, cls.braces, Brace),
      Rule(1, cls.digits, Number),
      Rule(1, cls.quotes, String),
      Rule(1, cls.ident, Ident) ]
  }

  predicate Matches(rule: Rule, code: string, i: int) {
    Substr(code, i, rule.width) in rule.texts
  }

  /** The first row, from row `k` on, whose texts contain the text at index `i`. */
  function FirstRule(rules: seq<Rule>, code: string, i: int, k: nat): (r: Option<nat>)
    ensures r.Some? ==> k <= r.value < |rules| && Matches(rules[r.value], code, i)
    decreases |rules| - k
  {
    if |rules| <= k then None
    else if Matches(rules[k], code, i) then Some(k)
    else FirstRule(rules, code, i, k + 1)
  }

  /** The kind a token gets from a row: identifiers may turn out to be keywords. */
  predicate KindFrom(kind: Kind, rule: Rule) {
    kind == rule.kind || (rule.kind == Ident && kind == Keyword)
  }

  /** The table lookup written out row by row. */
  lemma {:induction false} FirstRuleUnrolled(cls: Classes, code: string, i: int)
    ensures var two := Substr(code, i, 2); var one := Substr(code, i, 1);
      FirstRule(Rules(cls), code, i, 0) ==
        if two == "//" then Some(0) else if two == "/*" then Some(1)
        else if two in cls.logicalOp then Some(2) else if two in cls.comparisonOp2 then Some(3)
        else if one in cls.comparisonOp1 then Some(4) else if one in cls.op then Some(5)
        else if one in cls.symbols then Some(6) else if one in cls.paren then Some(7)
        else if one in cls.brackets then Some(8) else if one in cls.braces then Some(9)
        else if one in cls.digits then Some(10) else if one in cls.quotes then Some(11)
        else if one in cls.ident then Some(12) else None
  {
    var rules := Rules(cls);
    assert FirstRule(rules, code, i, 0) == if Matches(rules[0], code, i) then Some(0) else FirstRule(rules, code, i, 1);
    assert FirstRule(rules, code, i, 1) == if Matches(rules[1], code, i) then Some(1) else FirstRule(rules, code, i, 2);
    assert FirstRule(rules, code, i, 2) == if Matches(rules[2], code, i) then Some(2) else FirstRule(rules, code, i, 3);
    assert FirstRule(rules, code, i, 3) == if Matches(rules[3], code, i) then Some(3) else FirstRule(rules, code, i, 4);
    assert FirstRule(rules, code, i, 4) == if Matches(rules[4], code, i) then Some(4) else FirstRule(rules, code, i, 5);
    assert FirstRule(rules, code, i, 5) == if Matches(rules[5], code, i) then Some(5) else FirstRule(rules, code, i, 6);
    assert FirstRule(rules, code, i, 6) == if Matches(rules[6], code, i) then Some(6) else FirstRule(rules, code, i, 7);
    assert FirstRule(rules, code, i, 7) == if Matches(rules[7], code, i) then Some(7) else FirstRule(rules, code, i, 8);
    assert FirstRule(rules, code, i, 8) == if Matches(rules[8], code, i) then Some(8) else FirstRule(rules, code, i, 9);
    assert FirstRule(rules, code, i, 9) == if Matches(rules[9], code, i) then Some(9) else FirstRule(rules, code, i, 10);
    assert FirstRule(rules, code, i, 10) == if Matches(rules[10], code, i) then Some(10) else FirstRule(rules, code, i, 11);
    assert FirstRule(rules, code, i, 11) == if Matches(rules[11], code, i) then Some(11) else FirstRule(rules, code, i, 12);
    assert FirstRule(rules, code, i, 12) == if Matches(rules[12], code, i) then Some(12) else FirstRule(rules, code, i, 13);
  }

  /** One step of tokenize emits a token exactly when some row of the table matches at the cursor. */
  lemma ScanEmitsIffRuleMatches(cls: Classes, code: string, p: PosValue)
    requires p.index < |code|
    ensures Scan(cls, code, p).0.Some? <==> FirstRule(Rules(cls), code, p.index, 0).Some?
  {
    FirstRuleUnrolled(cls, code, p.index);
  }

  /**
   * The token's kind is that of the FIRST matching row: "//" is a comment
   * even when "/" is an operator, and a two-character comparison wins over
   * its first character.
   */
  lemma ScanKindFollowsFirstRule(cls: Classes, code: string, p: PosValue)
    requires p.index < |code|
    requires FirstRule(Rules(cls), code, p.index, 0).Some?
    ensures Scan(cls, code, p).0.Some?
    ensures KindFrom(Scan(cls, code, p).0.value.kind, Rules(cls)[FirstRule(Rules(cls), code, p.index, 0).value])
  {
    FirstRuleUnrolled(cls, code, p.index);
    var k := FirstRule(Rules(cls), code, p.index, 0).value;
    if k <= 1 {
      assert Scan(cls, code, p).0.value.kind == Comment;
    } else if k == 10 {
      assert Scan(cls, code, p).0.value.kind == Number;
    } else if k == 11 {
      assert Scan(cls, code, p).0.value.kind == String;
    } else if k == 12 {
      assert Scan(cls, code, p).0.value.kind in {Ident, Keyword};
    }
  }

  /** A character in no class is dropped: no token, and tokenize moves on by one character. */
  lemma UnknownCharacterSkipped(cls: Classes, code: string, p: PosValue, acc: seq<LexToken>)
    requires p.index < |code|
    requires FirstRule(Rules(cls), code, p.index, 0).None?
    ensures LexLoop(cls, code, p, acc) == LexLoop(cls, code, Yummed(code, p, 1), acc)
  {
    ScanEmitsIffRuleMatches(cls, code, p);
    var sc := Scan(cls, code, p);
    assert sc.0.None? && sc.1 == p;
    LexLoopStep(cls, code, p, acc);
    assert acc + [] == acc;
  }

  /**
   * A two-character logical or comparison operator becomes one token at the
   * cursor, and the next iteration starts two characters further on.
   */
  lemma TwoCharacterOperator(cls: Classes, code: string, p: PosValue, acc: seq<LexToken>)
    requires 0 <= p.index < |code|
    requires Substr(code, p.index, 2) != "//" && Substr(code, p.index, 2) != "/*"
    requires Substr(code, p.index, 2) in cls.logicalOp || Substr(code, p.index, 2) in cls.comparisonOp2
    ensures var two := Substr(code, p.index, 2);
      var next := Yummed(code, Yummed(code, p, 1), 1);
      && next.index == p.index + 2
      && LexLoop(cls, code, p, acc)
         == LexLoop(cls, code, next, acc + [LexToken(if two in cls.logicalOp then LogicalOp else CompOp, Text(two), p, None)])
  {
    LexLoopStep(cls, code, p, acc);
  }

  // ---------------------------------------------------------------------------
  // What the collecting loops capture

  /** A collecting loop's text is the accumulator followed by the characters it stepped over. */
  lemma {:induction false} RunText(code: string, p: PosValue, k: RunKind, acc: string)
    requires 0 <= p.index <= |code|
    ensures var r := Run(code, p, k, acc);
      p.index <= r.1.index <= |code| && r.0 == acc + code[p.index..r.1.index]
    decreases |code| - p.index
  {
    var i := p.index;
    if i < |code| && Continues(code, i, k) {
      var p' := Yummed(code, p, 1);
      assert CharAt(code, p) == [code[i]];
      RunText(code, p', k, acc + [code[i]]);
      var r := Run(code, p', k, acc + [code[i]]);
      assert code[i..r.1.index] == [code[i]] + code[i + 1..r.1.index];
    }
  }

  /** The cursor a collecting loop leaves is the one reached by consuming those characters one at a time. */
  lemma {:induction false} RunWalk(code: string, p: PosValue, k: RunKind, acc: string)
    requires 0 <= p.index <= |code|
    ensures var r := Run(code, p, k, acc);
      p.index <= r.1.index <= |code| && r.1 == Walk(p, code[p.index..r.1.index])
    decreases |code| - p.index
  {
    var i := p.index;
    if i < |code| && Continues(code, i, k) {
      var p' := Yummed(code, p, 1);
      assert CharAt(code, p) == [code[i]];
      RunWalk(code, p', k, acc + [code[i]]);
      var r := Run(code, p', k, acc + [code[i]]);
      assert code[i..r.1.index] == [code[i]] + code[i + 1..r.1.index];
      WalkFront(p, code[i], code[i + 1..r.1.index]);
    } else {
      assert code[i..i] == [];
    }
  }

  /** A collecting loop stops at the first index where its condition fails, or at the end of the text. */
  lemma {:induction false} RunStops(code: string, p: PosValue, k: RunKind, acc: string)
    ensures var r := Run(code, p, k, acc);
      && (forall j :: p.index <= j < r.1.index ==> Continues(code, j, k))
      && (r.1.index >= |code| || !Continues(code, r.1.index, k))
    decreases |code| - p.index
  {
    if p.index < |code| && Continues(code, p.index, k) {
      RunStops(code, Yummed(code, p, 1), k, acc + CharAt(code, p));
    }
  }

  /**
   * makeComment / makeMultilineComment: the comment text is everything after
   * the two opening characters up to the first occurrence of the closing
   * pair, or to the end of the text; the cursor is left on the first
   * character of the closing pair.
   */
  lemma CommentContents(code: string, p: PosValue, close: string)
    requires 0 <= p.index && p.index + 2 <= |code|
    ensures var (t, q) := ScanComment(code, p, close);
      var from := p.index + 2;
      && t.kind == Comment && t.left == p && t.right == Some(q)
      && from <= q.index <= |code|
      && t.value == Text(code[from..q.index])
      && (forall j :: from <= j < q.index ==> Substr(code, j, 2) != close)
      && (q.index == |code| || Substr(code, q.index, 2) == close)
  {
    var p' := Yummed(code, p, 2);
    RunText(code, p', CommentUntil(close), "");
    RunStops(code, p', CommentUntil(close), "");
    var q := Run(code, p', CommentUntil(close), "").1;
    forall j | p.index + 2 <= j < q.index
      ensures Substr(code, j, 2) != close
    {
      assert Continues(code, j, CommentUntil(close));
    }
  }

  /** A line comment runs past a bare "\n": only "\r\n" ends it. */
  lemma LineCommentIgnoresBareNewline(code: string, p: PosValue)
    requires 0 <= p.index && p.index + 2 <= |code|
    requires forall j :: p.index + 2 <= j < |code| ==> code[j] != '\r'
    ensures ScanComment(code, p, "\r\n").0.value == Text(code[p.index + 2..])
  {
    CommentContents(code, p, "\r\n");
  }

  /** The opening pair of a block comment at the cursor is scanned as a block comment. */
  lemma BlockCommentScanned(cls: Classes, code: string, p: PosValue)
    requires 0 <= p.index && p.index + 2 <= |code| && Substr(code, p.index, 2) == "/*"
    ensures Scan(cls, code, p) == (Some(ScanComment(code, p, "*/").0), ScanComment(code, p, "*/").1)
  {
    RunAdvances(code, Yummed(code, p, 2), CommentUntil("*/"), "");
  }

  /** A closed block comment leaves the cursor on the "*" of the first closing pair after the opening pair. */
  lemma ClosedCommentEndsOnStar(code: string, p: PosValue)
    requires 0 <= p.index && p.index + 2 <= |code|
    requires ScanComment(code, p, "*/").1.index < |code|
    ensures var q := ScanComment(code, p, "*/").1;
      0 <= q.index && q.index + 2 <= |code| && code[q.index] == '*' && code[q.index + 1] == '/'
  {
    CommentContents(code, p, "*/");
    var q := ScanComment(code, p, "*/").1;
    assert Substr(code, q.index, 2) == "*/";
    assert code[q.index..q.index + 2] == "*/";
  }

  /** A "/" that starts no longer token and is no comparison is an Operator token when "/" is an operator. */
  lemma SlashScanned(cls: Classes, code: string, c: PosValue)
    requires 0 <= c.index < |code| && code[c.index] == '/'
    requires "/" in cls.op && "/" !in cls.comparisonOp1
    requires var two := Substr(code, c.index, 2);
      two != "//" && two != "/*" && two !in cls.logicalOp && two !in cls.comparisonOp2
    ensures Scan(cls, code, c) == (Some(LexToken(Operator, Text("/"), c, None)), c)
  {
    assert CharAt(code, c) == "/";
  }

  /**
   * A block comment leaves the cursor on the "*" of its closing pair, so
   * tokenize's step lands on the "/" and reads it again: when "/" is an
   * operator (and starts no longer token) it comes out as an Operator token
   * right after the comment.
   */
  lemma BlockCommentCloserReadAgain(cls: Classes, code: string, p: PosValue, acc: seq<LexToken>)
    requires 0 <= p.index && p.index + 2 <= |code| && Substr(code, p.index, 2) == "/*"
    requires ScanComment(code, p, "*/").1.index < |code|
    requires "/" in cls.op && "/" !in cls.comparisonOp1
    requires var two := Substr(code, ScanComment(code, p, "*/").1.index + 1, 2);
      two != "//" && two != "/*" && two !in cls.logicalOp && two !in cls.comparisonOp2
    ensures var (t, q) := ScanComment(code, p, "*/");
      var c := Yummed(code, q, 1);
      && c.index == q.index + 1 && 0 <= c.index < |code| && code[c.index] == '/'
      && LexLoop(cls, code, p, acc)
         == LexLoop(cls, code, Yummed(code, c, 1), acc + [t, LexToken(Operator, Text("/"), c, None)])
  {
    var (t, q) := ScanComment(code, p, "*/");
    ClosedCommentEndsOnStar(code, p);
    assert CharAt(code, q) == "*";
    var c := Yummed(code, q, 1);
    BlockCommentScanned(cls, code, p);
    LexLoopStep(cls, code, p, acc);
    SlashScanned(cls, code, c);
    LexLoopStep(cls, code, c, acc + [t]);
    assert acc + [t] + [LexToken(Operator, Text("/"), c, None)] == acc + [t, LexToken(Operator, Text("/"), c, None)];
  }

  /**
   * makeString: the value is exactly the characters between the opening
   * quote and the next occurrence of the same quote character, with no
   * escapes; an unterminated string runs to the end of the text. The cursor
   * is left on the closing quote.
   */
  lemma StringContents(code: string, p: PosValue)
    requires 0 <= p.index < |code|
    ensures var (t, q) := ScanString(code, p);
      var quote := code[p.index];
      && t.kind == String && t.left == p && t.right == Some(q)
      && p.index + 1 <= q.index <= |code|
      && t.value == Text(code[p.index + 1..q.index])
      && quote !in code[p.index + 1..q.index]
      && (q.index == |code| || code[q.index] == quote)
  {
    var quote := code[p.index];
    var k := StringUntil([quote]);
    var p' := Yummed(code, p, 1);
    assert CharAt(code, p) == [quote];
    RunText(code, p', k, "");
    RunStops(code, p', k, "");
    var q := Run(code, p', k, "").1;
    forall j | p.index + 1 <= j < q.index
      ensures code[j] != quote
    {
      assert Continues(code, j, k);
      assert Substr(code, j, 1) == [code[j]];
    }
    if q.index < |code| {
      assert Substr(code, q.index, 1) == [code[q.index]];
    }
  }

  predicate IsIdentChar(cls: Classes, c: char) {
    [c] in cls.ident || [c] in cls.digits
  }

  /**
   * makeIdent: the word is the maximal run of identifier and digit
   * characters from the cursor; it is a Keyword exactly when the word is in
   * the keyword list, and an Ident otherwise. The cursor is stepped back
   * onto the last character of the word.
   */
  lemma IdentContents(cls: Classes, code: string, p: PosValue)
    requires 0 <= p.index < |code| && [code[p.index]] in cls.ident
    ensures var (t, q) := ScanIdent(cls, code, p);
      var end := q.index + 1;
      && t.left == p && t.right == Some(q)
      && p.index < end <= |code|
      && t.value == Text(code[p.index..end])
      && (t.kind == Keyword <==> code[p.index..end] in cls.keywords)
      && (t.kind == Ident <==> code[p.index..end] !in cls.keywords)
      && (forall j :: p.index <= j < end ==> IsIdentChar(cls, code[j]))
      && (end == |code| || !IsIdentChar(cls, code[end]))
  {
    var k := IdentChars(cls.ident, cls.digits);
    assert Substr(code, p.index, 1) == [code[p.index]];
    RunAdvances(code, p, k, "");
    RunText(code, p, k, "");
    RunStops(code, p, k, "");
    var q := Run(code, p, k, "").1;
    forall j | p.index <= j < q.index
      ensures IsIdentChar(cls, code[j])
    {
      assert Continues(code, j, k);
      assert Substr(code, j, 1) == [code[j]];
    }
    if q.index < |code| {
      assert Substr(code, q.index, 1) == [code[q.index]];
    }
  }

  // ---------------------------------------------------------------------------
  // Numbers

  /** A character the number loop accepts: a dot or a digit. */
  predicate IsNumberChar(cls: Classes, c: char) {
    c == '.' || [c] in cls.digits
  }

  /** The number of dots in a text. */
  function Dots(s: string): nat {
    if s == [] then 0 else (if s[0] == '.' then 1 else 0) + Dots(s[1..])
  }

  lemma {:induction false} NoDotsIffNoDot(s: string)
    ensures Dots(s) == 0 <==> '.' !in s
  {
    if s != [] {
      NoDotsIffNoDot(s[1..]);
      assert s == [s[0]] + s[1..];
    }
  }

  /** One iteration of the number loop that takes the character at the cursor. */
  lemma NumberLoopStep(cls: Classes, code: string, p: PosValue, acc: string, isFloat: bool)
    requires 0 <= p.index < |code|
    requires var c := CharAt(code, p); (c in cls.digits || c == ".") && !(c == "." && isFloat)
    ensures CharAt(code, p) == [code[p.index]]
    ensures Yummed(code, p, 1).index == p.index + 1
    ensures NumberLoop(cls, code, p, acc, isFloat)
         == NumberLoop(cls, code, Yummed(code, p, 1), acc + CharAt(code, p), isFloat || CharAt(code, p) == ".")
  {
  }

  /** The number loop's text is the accumulator followed by the characters it stepped over. */
  lemma {:induction false} NumberLoopText(cls: Classes, code: string, p: PosValue, acc: string, isFloat: bool)
    requires 0 <= p.index <= |code|
    ensures var r := NumberLoop(cls, code, p, acc, isFloat);
      p.index <= r.2.index <= |code| && r.0 == acc + code[p.index..r.2.index]
    decreases |code| - p.index
  {
    var i := p.index;
    if i < |code| {
      var c := CharAt(code, p);
      if (c in cls.digits || c == ".") && !(c == "." && isFloat) {
        NumberLoopStep(cls, code, p, acc, isFloat);
        var q := Yummed(code, p, 1);
        NumberLoopText(cls, code, q, acc + c, isFloat || c == ".");
        var k := NumberLoop(cls, code, q, acc + c, isFloat || c == ".").2.index;
        assert i + 1 <= k <= |code|;
        assert code[i..k] == [code[i]] + code[i + 1..k];
        assert (acc + c) + code[i + 1..k] == acc + code[i..k];
      }
    }
  }

  /**
   * The characters the number loop takes are digits and dots, with at most
   * one dot over the whole number (none once a dot was seen), and the float
   * flag it returns says whether a dot was seen.
   */
  lemma {:induction false} NumberLoopShape(cls: Classes, code: string, p: PosValue, acc: string, isFloat: bool)
    requires 0 <= p.index <= |code|
    ensures var r := NumberLoop(cls, code, p, acc, isFloat);
      && p.index <= r.2.index <= |code|
      && (forall j :: p.index <= j < r.2.index ==> IsNumberChar(cls, code[j]))
      && Dots(code[p.index..r.2.index]) <= (if isFloat then 0 else 1)
      && (r.1 <==> isFloat || Dots(code[p.index..r.2.index]) == 1)
    decreases |code| - p.index
  {
    var i := p.index;
    var r := NumberLoop(cls, code, p, acc, isFloat);
    if i < |code| {
      assert CharAt(code, p) == [code[i]];
      if (CharAt(code, p) == "." && !isFloat) || (CharAt(code, p) != "." && CharAt(code, p) in cls.digits) {
        var isFloat' := isFloat || CharAt(code, p) == ".";
        NumberLoopShape(cls, code, Yummed(code, p, 1), acc + CharAt(code, p), isFloat');
        var seg := code[i..r.2.index];
        assert seg[1..] == code[i + 1..r.2.index];
      } else {
        assert code[i..i] == [];
      }
    } else {
      assert code[i..i] == [];
    }
  }

  /** The number loop stops at the end, at a character that is neither digit nor dot, or at a second dot. */
  lemma {:induction false} NumberLoopStops(cls: Classes, code: string, p: PosValue, acc: string, isFloat: bool)
    ensures var r := NumberLoop(cls, code, p, acc, isFloat);
      r.2.index >= |code| || r.2.index < 0 || !IsNumberChar(cls, code[r.2.index]) || (code[r.2.index] == '.' && r.1)
    decreases |code| - p.index
  {
    var i := p.index;
    if 0 <= i < |code| {
      assert CharAt(code, p) == [code[i]];
    }
    if i < |code| && (CharAt(code, p) in cls.digits || CharAt(code, p) == ".") {
      if CharAt(code, p) == "." {
        if !isFloat {
          NumberLoopStops(cls, code, Yummed(code, p, 1), acc + ".", true);
        }
      } else {
        NumberLoopStops(cls, code, Yummed(code, p, 1), acc + CharAt(code, p), isFloat);
      }
    }
  }

  /**
   * makeNumber: the lexeme is the run of digits and dots from the cursor,
   * holding at most one dot (a second dot ends the number instead of being
   * an error); the number is parsed as a float exactly when a dot was seen.
   * The cursor is stepped back onto the last character of the lexeme.
   */
  lemma NumberContents(cls: Classes, code: string, p: PosValue)
    requires 0 <= p.index < |code| && [code[p.index]] in cls.digits
    ensures var (t, q) := ScanNumber(cls, code, p);
      var end := q.index + 1;
      && t.kind == Number && t.left == p && t.right == Some(q)
      && p.index < end <= |code|
      && t.value == NumberText(code[p.index..end], t.value.isFloat)
      && (forall j :: p.index <= j < end ==> IsNumberChar(cls, code[j]))
      && Dots(code[p.index..end]) <= 1
      && (t.value.isFloat <==> '.' in code[p.index..end])
      && (end == |code| || !IsNumberChar(cls, code[end]) || (code[end] == '.' && t.value.isFloat))
  {
    assert CharAt(code, p) == [code[p.index]];
    NumberLoopAdvances(cls, code, p, "", false);
    NumberLoopText(cls, code, p, "", false);
    NumberLoopShape(cls, code, p, "", false);
    NumberLoopStops(cls, code, p, "", false);
    var q := NumberLoop(cls, code, p, "", false).2;
    NoDotsIffNoDot(code[p.index..q.index]);
  }

  /**
   * The step back after a number hands `advance` the character AFTER the
   * number: when that is a newline the line is bumped there, and tokenize
   * bumps it again when it consumes the newline itself.
   */
  lemma NumberBeforeNewlineBumpsLine(cls: Classes, code: string, p: PosValue)
    requires "\n" !in cls.digits
    ensures var q := NumberLoop(cls, code, p, "", false).2;
      0 <= q.index < |code| && code[q.index] == '\n' ==>
        ScanNumber(cls, code, p).1.line == p.line + 1 && ScanNumber(cls, code, p).1.column == 0
  {
    NumberLoopKeepsLine(cls, code, p, "", false);
    var q := NumberLoop(cls, code, p, "", false).2;
    if 0 <= q.index < |code| && code[q.index] == '\n' {
      assert CharAt(code, q) == "\n";
    }
  }

  /** No newline is part of a number, so the number loop leaves the line alone. */
  lemma {:induction false} NumberLoopKeepsLine(cls: Classes, code: string, p: PosValue, acc: string, isFloat: bool)
    requires "\n" !in cls.digits
    ensures NumberLoop(cls, code, p, acc, isFloat).2.line == p.line
    decreases |code| - p.index
  {
    if p.index < |code| && (CharAt(code, p) in cls.digits || CharAt(code, p) == ".") {
      if CharAt(code, p) == "." {
        if !isFloat {
          NumberLoopKeepsLine(cls, code, Yummed(code, p, 1), acc + ".", true);
        }
      } else {
        NumberLoopKeepsLine(cls, code, Yummed(code, p, 1), acc + CharAt(code, p), isFloat);
      }
    }
  }

  /** No newline is part of an identifier, so the identifier loop leaves the line alone. */
  lemma {:induction false} IdentRunKeepsLine(code: string, p: PosValue, ident: set<string>, digits: set<string>, acc: string)
    requires "\n" !in ident && "\n" !in digits
    ensures Run(code, p, IdentChars(ident, digits), acc).1.line == p.line
    decreases |code| - p.index
  {
    var k := IdentChars(ident, digits);
    if p.index < |code| && Continues(code, p.index, k) {
      IdentRunKeepsLine(code, Yummed(code, p, 1), ident, digits, acc + CharAt(code, p));
    }
  }

  /** The step back after an identifier also hands `advance` the character after the word. */
  lemma IdentBeforeNewlineBumpsLine(cls: Classes, code: string, p: PosValue)
    requires "\n" !in cls.ident && "\n" !in cls.digits
    ensures var q := Run(code, p, IdentChars(cls.ident, cls.digits), "").1;
      0 <= q.index < |code| && code[q.index] == '\n' ==>
        ScanIdent(cls, code, p).1.line == p.line + 1 && ScanIdent(cls, code, p).1.column == 0
  {
    IdentRunKeepsLine(code, p, cls.ident, cls.digits, "");
    var q := Run(code, p, IdentChars(cls.ident, cls.digits), "").1;
    if 0 <= q.index < |code| && code[q.index] == '\n' {
      assert CharAt(code, q) == "\n";
    }
  }

  /** When the digit row is the first that matches, tokenize's step scans a number. */
  lemma NumberScanned(cls: Classes, code: string, p: PosValue)
    requires 0 <= p.index < |code| && FirstRule(Rules(cls), code, p.index, 0) == Some(10)
    ensures [code[p.index]] in cls.digits
    ensures Scan(cls, code, p) == (Some(ScanNumber(cls, code, p).0), ScanNumber(cls, code, p).1)
  {
    FirstRuleUnrolled(cls, code, p.index);
    assert Substr(code, p.index, 1) == [code[p.index]];
  }

  /** When the identifier row is the first that matches, tokenize's step scans an identifier. */
  lemma IdentScanned(cls: Classes, code: string, p: PosValue)
    requires 0 <= p.index < |code| && FirstRule(Rules(cls), code, p.index, 0) == Some(12)
    ensures [code[p.index]] in cls.ident
    ensures Scan(cls, code, p) == (Some(ScanIdent(cls, code, p).0), ScanIdent(cls, code, p).1)
  {
    FirstRuleUnrolled(cls, code, p.index);
    assert Substr(code, p.index, 1) == [code[p.index]];
    RunAdvances(code, p, IdentChars(cls.ident, cls.digits), "");
  }

  /**
   * A number followed by a newline that no class claims: the newline is
   * counted once by the step back and once more when tokenize consumes it,
   * so the next token starts two lines further down.
   */
  lemma NumberThenNewlineCountsTwice(cls: Classes, code: string, p: PosValue, acc: seq<LexToken>)
    requires 0 <= p.index < |code| && FirstRule(Rules(cls), code, p.index, 0) == Some(10)
    requires "\n" !in cls.digits
    requires var q := NumberLoop(cls, code, p, "", false).2;
      0 <= q.index < |code| && code[q.index] == '\n' && FirstRule(Rules(cls), code, q.index, 0).None?
    ensures var q := NumberLoop(cls, code, p, "", false).2;
      var next := Yummed(code, Yummed(code, ScanNumber(cls, code, p).1, 1), 1);
      && next.index == q.index + 1 && next.line == p.line + 2 && next.column == 0
      && LexLoop(cls, code, p, acc) == LexLoop(cls, code, next, acc + [ScanNumber(cls, code, p).0])
  {
    var sn := ScanNumber(cls, code, p);
    NumberScanned(cls, code, p);
    LexLoopStep(cls, code, p, acc);
    NumberBeforeNewlineBumpsLine(cls, code, p);
    NumberContents(cls, code, p);
    assert IsNumberChar(cls, code[sn.1.index]);
    assert CharAt(code, sn.1) == [code[sn.1.index]];
    var m := Yummed(code, sn.1, 1);
    assert CharAt(code, m) == "\n";
    UnknownCharacterSkipped(cls, code, m, acc + [sn.0]);
  }

  /** The same double count after an identifier or keyword. */
  lemma IdentThenNewlineCountsTwice(cls: Classes, code: string, p: PosValue, acc: seq<LexToken>)
    requires 0 <= p.index < |code| && FirstRule(Rules(cls), code, p.index, 0) == Some(12)
    requires "\n" !in cls.ident && "\n" !in cls.digits
    requires var q := Run(code, p, IdentChars(cls.ident, cls.digits), "").1;
      0 <= q.index < |code| && code[q.index] == '\n' && FirstRule(Rules(cls), code, q.index, 0).None?
    ensures var q := Run(code, p, IdentChars(cls.ident, cls.digits), "").1;
      var next := Yummed(code, Yummed(code, ScanIdent(cls, code, p).1, 1), 1);
      && next.index == q.index + 1 && next.line == p.line + 2 && next.column == 0
      && LexLoop(cls, code, p, acc) == LexLoop(cls, code, next, acc + [ScanIdent(cls, code, p).0])
  {
    var si := ScanIdent(cls, code, p);
    IdentScanned(cls, code, p);
    LexLoopStep(cls, code, p, acc);
    IdentBeforeNewlineBumpsLine(cls, code, p);
    IdentContents(cls, code, p);
    assert IsIdentChar(cls, code[si.1.index]);
    assert CharAt(code, si.1) == [code[si.1.index]];
    var m := Yummed(code, si.1, 1);
    assert CharAt(code, m) == "\n";
    UnknownCharacterSkipped(cls, code, m, acc + [si.0]);
  }
}
