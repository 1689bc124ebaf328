/**
 * error.ts: a diagnostic that keeps the Position object it was given and
 * prints as `file:line:column: details`, with one-based line and column.
 */
module Errors {
  import opened Wrappers
  import opened Positions
  import Decimal

  /** The constructor stores the Position reference itself (no clone) and the details text. */
  datatype Error = Error(position: Position, details: string) {

    /** `asString()`: reads the position's fields at call time and changes nothing. */
    function AsString(): (s: string)
      reads position
      ensures |position.filename| + |details| + 2 < |s|
      ensures s[..|position.filename| + 1] == position.filename + ":"
      ensures s[|s| - |details| - 2..] == ": " + details
    {
      position.filename + ":" + Decimal.IntText(position.line + 1) + ":"
        + Decimal.IntText(position.column + 1) + ": " + details
    }
  }

  /** The parts of a printed diagnostic. */
  datatype Diagnostic = Diagnostic(filename: string, line: int, column: int, details: string)

  /** Splits `s` at the first occurrence of `c`. */
  function SplitAt(s: string, c: char): Option<(string, string)> {
    if s == [] then None
    else if s[0] == c then Some(([], s[1..]))
    else match SplitAt(s[1..], c)
      case None => None
      case Some(parts) => Some(([s[0]] + parts.0, parts.1))
  }

  /** Reads `file:line:column: details` back, for a file name without ':'. */
  function ParseDiagnostic(s: string): Option<Diagnostic> {
    match SplitAt(s, ':')
    case None => None
    case Some((name, rest)) =>
      match SplitAt(rest, ':')
      case None => None
      case Some((lineText, rest')) =>
        match SplitAt(rest', ':')
        case None => None
        case Some((columnText, rest'')) =>
          if rest'' != [] && rest''[0] == ' ' && Decimal.ParseInt(lineText).Some? && Decimal.ParseInt(columnText).Some?
          then Some(Diagnostic(name, Decimal.ParseInt(lineText).value, Decimal.ParseInt(columnText).value, rest''[1..]))
          else None
  }

  lemma {:induction false} SplitAtFirst(a: string, c: char, b: string)
    requires c !in a
    ensures SplitAt(a + [c] + b, c) == Some((a, b))
  {
    if a != [] {
      assert (a + [c] + b)[1..] == a[1..] + [c] + b;
      SplitAtFirst(a[1..], c, b);
      assert [a[0]] + a[1..] == a;
    } else {
      assert (a + [c] + b)[1..] == b;
    }
  }

  /** The zero-based position fields are printed one-based. */
  lemma OneBased(e: Error)
    requires e.position.line == 0 && e.position.column == 0
    ensures e.AsString() == e.position.filename + ":1:1: " + e.details
  {
  }

  lemma IntTextHasNoColon(n: int)
    ensures ':' !in Decimal.IntText(n)
  {
  }

  /** The three splits ParseDiagnostic makes find the three separators of a printed diagnostic. */
  lemma PrintedSplits(name: string, lineText: string, columnText: string, tail: string)
    requires ':' !in name && ':' !in lineText && ':' !in columnText
    ensures var rest' := columnText + [':'] + tail;
      var rest := lineText + [':'] + rest';
      && SplitAt(name + [':'] + rest, ':') == Some((name, rest))
      && SplitAt(rest, ':') == Some((lineText, rest'))
      && SplitAt(rest', ':') == Some((columnText, tail))
  {
    var rest' := columnText + [':'] + tail;
    var rest := lineText + [':'] + rest';
    SplitAtFirst(name, ':', rest);
    SplitAtFirst(lineText, ':', rest');
    SplitAtFirst(columnText, ':', tail);
  }

  /** The printed form, regrouped around its three ':' separators. */
  lemma PrintedShape(name: string, lineText: string, columnText: string, details: string)
    ensures name + ":" + lineText + ":" + columnText + ": " + details
         == name + [':'] + (lineText + [':'] + (columnText + [':'] + (" " + details)))
  {
  }

  /** `file:line:column: details` parses back into its parts when the file name has no ':'. */
  lemma PrintedRoundTrip(name: string, line: int, column: int, details: string)
    requires ':' !in name
    ensures ParseDiagnostic(name + ":" + Decimal.IntText(line) + ":" + Decimal.IntText(column) + ": " + details)
         == Some(Diagnostic(name, line, column, details))
  {
    var lineText := Decimal.IntText(line);
    var columnText := Decimal.IntText(column);
    var tail := " " + details;
    var rest' := columnText + [':'] + tail;
    var rest := lineText + [':'] + rest';
    IntTextHasNoColon(line);
    IntTextHasNoColon(column);
    PrintedSplits(name, lineText, columnText, tail);
    Decimal.IntTextRoundTrip(line);
    Decimal.IntTextRoundTrip(column);
    assert tail[0] == ' ' && tail[1..] == details;
    assert ParseDiagnostic(name + [':'] + rest) == Some(Diagnostic(name, line, column, details));
    PrintedShape(name, lineText, columnText, details);
  }

  /**
   * The printed diagnostic can be split back into the file name, the
   * one-based line and column, and the details, whenever the file name
   * itself contains no ':'.
   */
  lemma AsStringRoundTrip(e: Error)
    requires ':' !in e.position.filename
    ensures ParseDiagnostic(e.AsString())
         == Some(Diagnostic(e.position.filename, e.position.line + 1, e.position.column + 1, e.details))
  {
    var p := e.position;
    var printed := p.filename + ":" + Decimal.IntText(p.line + 1) + ":" + Decimal.IntText(p.column + 1) + ": " + e.details;
    assert e.AsString() == printed;
    PrintedRoundTrip(p.filename, p.line + 1, p.column + 1, e.details);
  }
}
