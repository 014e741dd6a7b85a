/**
  ErrorSpan: the diagnostic record that binds a named source text to the
  range a parse failure was found in, and the sentence it displays.
 */
module Diagnostics {
  import opened Wrappers
  import opened Text

  /** A tree-sitter position: zero-based row and column. */
  datatype Point = Point(row: nat, column: nat)

  /** A tree-sitter range: byte offsets and the start and end points. */
  datatype Range = Range(startByte: nat, endByte: nat, startPoint: Point, endPoint: Point)

  /** miette's `NamedSource` with its language set: a name, the full text, the language. */
  datatype NamedSource = NamedSource(name: string, source: string, language: string)

  /** miette's `SourceSpan`: a byte offset and a length. */
  datatype SourceSpan = SourceSpan(offset: nat, length: nat)

  /** The located failure reported by the parsing code; name and text may be absent. */
  datatype NodeSpan = NodeSpan(range: Range, location: Option<string>, content: Option<string>, language: string)

  datatype ErrorSpan = ErrorSpan(src: NamedSource, span: SourceSpan, range: Range)

  /**
    `impl From<NodeSpan> for ErrorSpan`. It never fails: an absent location or
    content becomes the empty string, the range is copied as it is, and the
    byte span is whatever `NodeSpan::source_span()` gives, passed in as
    `sourceSpan` since that method is not part of this model.
   */
  function FromNodeSpan(node: NodeSpan, sourceSpan: SourceSpan): (s: ErrorSpan)
    ensures s.range == node.range && s.span == sourceSpan
    ensures s.src.language == node.language
    ensures node.location.Some? ==> s.src.name == node.location.value
    ensures node.location.None? ==> s.src.name == ""
    ensures node.content.Some? ==> s.src.source == node.content.value
    ensures node.content.None? ==> s.src.source == ""
  {
    ErrorSpan(NamedSource(UnwrapOrEmpty(node.location), UnwrapOrEmpty(node.content), node.language), sourceSpan, node.range)
  }

  const BetweenLine: string := "Parsing error between line "
  const CommaColumn: string := ", column "
  const AndLine: string := " and line "

  /**
    The sentence for the four zero-based coordinates, each printed in decimal
    after its fixed words; PositionSentenceRoundTrip shows the coordinates read
    back from it.
   */
  function PositionSentence(startRow: nat, startColumn: nat, endRow: nat, endColumn: nat): (r: string)
    ensures |r| > |BetweenLine| && r[..|BetweenLine|] == BetweenLine
  {
    BetweenLine + NatToDecimal(startRow) + CommaColumn + NatToDecimal(startColumn)
    + AndLine + NatToDecimal(endRow) + CommaColumn + NatToDecimal(endColumn)
  }

  /**
    `impl Display for ErrorSpan`: only the range's points are shown, as they are
    (zero-based), and they read back from the text.
   */
  function Render(s: ErrorSpan): (r: string)
    ensures ParsePositionSentence(r) == Some((s.range.startPoint.row, s.range.startPoint.column,
                                              s.range.endPoint.row, s.range.endPoint.column))
  {
    var start := s.range.startPoint;
    var end := s.range.endPoint;
    PositionSentenceRoundTrip(start.row, start.column, end.row, end.column);
    PositionSentence(start.row, start.column, end.row, end.column)
  }

  /** Reads `lead` followed by a decimal numeral off the front of `s`. */
  function ReadNumber(s: string, lead: string): Option<(nat, string)> {
    if lead <= s then
      var (digits, rest) := SplitDigits(s[|lead|..]);
      if digits == [] then None else Some((DecimalValue(digits), rest))
    else
      None
  }

  /** Recovers the four coordinates from a position sentence, the inverse of PositionSentence. */
  function ParsePositionSentence(s: string): Option<(nat, nat, nat, nat)> {
    match ReadNumber(s, BetweenLine)
    case None => None
    case Some((startRow, s1)) =>
      match ReadNumber(s1, CommaColumn)
      case None => None
      case Some((startColumn, s2)) =>
        match ReadNumber(s2, AndLine)
        case None => None
        case Some((endRow, s3)) =>
          match ReadNumber(s3, CommaColumn)
          case None => None
          case Some((endColumn, s4)) =>
            if s4 == [] then Some((startRow, startColumn, endRow, endColumn)) else None
  }

  /** Reading back a lead and a rendered number, followed by a non-digit or nothing. */
  lemma {:induction false} ReadNumberOf(lead: string, n: nat, rest: string)
    requires rest == [] || !IsDigit(rest[0])
    ensures ReadNumber(lead + NatToDecimal(n) + rest, lead) == Some((n, rest))
  {
    var s := lead + NatToDecimal(n) + rest;
    assert s[|lead|..] == NatToDecimal(n) + rest;
    SplitDigitsOf(NatToDecimal(n), rest);
  }

  /** The coordinates can be read back from the sentence: nothing is lost or shifted in printing. */
  lemma {:induction false} PositionSentenceRoundTrip(startRow: nat, startColumn: nat, endRow: nat, endColumn: nat)
    ensures ParsePositionSentence(PositionSentence(startRow, startColumn, endRow, endColumn))
      == Some((startRow, startColumn, endRow, endColumn))
  {
    var d1, d2, d3, d4 := NatToDecimal(startRow), NatToDecimal(startColumn), NatToDecimal(endRow), NatToDecimal(endColumn);
    var s4: string := [];
    var s3 := CommaColumn + d4 + s4;
    var s2 := AndLine + d3 + s3;
    var s1 := CommaColumn + d2 + s2;
    var s := BetweenLine + d1 + s1;
    assert s == PositionSentence(startRow, startColumn, endRow, endColumn);
    ReadNumberOf(BetweenLine, startRow, s1);
    ReadNumberOf(CommaColumn, startColumn, s2);
    ReadNumberOf(AndLine, endRow, s3);
    ReadNumberOf(CommaColumn, endColumn, s4);
  }

  /**
    Two spans display the same sentence exactly when their ranges have the same
    start and end points.
   */
  lemma {:induction false} RenderIdentifiesPoints(a: ErrorSpan, b: ErrorSpan)
    ensures Render(a) == Render(b) <==>
      (a.range.startPoint == b.range.startPoint && a.range.endPoint == b.range.endPoint)
  {
    if Render(a) == Render(b) {
      assert ParsePositionSentence(Render(a)) == ParsePositionSentence(Render(b));
    }
  }

  /** Building a span from a located failure and displaying it shows the failure's own points. */
  lemma {:induction false} FromNodeSpanRendersItsRange(node: NodeSpan, sourceSpan: SourceSpan)
    ensures ParsePositionSentence(Render(FromNodeSpan(node, sourceSpan)))
      == Some((node.range.startPoint.row, node.range.startPoint.column,
               node.range.endPoint.row, node.range.endPoint.column))
  {
    assert FromNodeSpan(node, sourceSpan).range == node.range;
  }

  /** A one-line source from row 0, column 0 to row 0, column 8. */
  lemma RenderExample()
    ensures Render(FromNodeSpan(
      NodeSpan(Range(0, 8, Point(0, 0), Point(0, 8)), Some("a.rs"), Some("fn f() {"), "rust"),
      SourceSpan(0, 8)))
      == "Parsing error between line 0, column 0 and line 0, column 8"
  {
    var span := FromNodeSpan(
      NodeSpan(Range(0, 8, Point(0, 0), Point(0, 8)), Some("a.rs"), Some("fn f() {"), "rust"),
      SourceSpan(0, 8));
    assert Render(span) == PositionSentence(0, 0, 0, 8);
    ExampleSentence();
  }

  /** The sentence for the coordinates (0, 0) and (0, 8). */
  lemma ExampleSentence()
    ensures PositionSentence(0, 0, 0, 8) == "Parsing error between line 0, column 0 and line 0, column 8"
  {
    assert NatToDecimal(0) == "0" && NatToDecimal(8) == "8";
    assert PositionSentence(0, 0, 0, 8) == BetweenLine + "0" + CommaColumn + "0" + AndLine + "0" + CommaColumn + "8";
  }
}
