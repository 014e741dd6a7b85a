/**
  The conversions from the failures of the formatter's collaborators into a
  FormatterError, and the chain of contexts a converted report keeps.

  Each conversion is chosen by the type of the failure alone; only an I/O error
  is looked at, and only for whether its kind is "not found". The fields of
  ExternalError stand for the instance data each failure carries, which the
  conversions ignore.
 */
module Conversion {
  import opened Wrappers
  import opened FormatterErrors

  /** `std::io::ErrorKind`: "not found", or any one of the other kinds. */
  datatype IoErrorKind = NotFound | OtherKind

  /** One failure of a collaborator, by its Rust type. */
  datatype ExternalError =
    | Utf8Error(validUpTo: nat, errorLen: Option<nat>)      // std::str::Utf8Error
    | FromUtf8Error(bytes: seq<bv8>, validUpTo: nat)        // std::string::FromUtf8Error
    | FmtError                                              // std::fmt::Error
    | SerdeJsonError(line: nat, column: nat)                // serde_json::Error
    | LanguageError(detail: string)                         // topiary_tree_sitter_facade::LanguageError
    | ParserError(detail: string)                           // topiary_tree_sitter_facade::ParserError
    | QueryError(row: nat, column: nat, offset: nat, detail: string) // topiary_tree_sitter_facade::QueryError
    | IntoInnerError(buffered: seq<bv8>, cause: IoErrorKind) // std::io::IntoInnerError<BufWriter<_>>
    | IoError(kind: IoErrorKind)                            // std::io::Error

  /** The Rust type of a failure: the key the conversion table is indexed by. */
  datatype FailureType = Utf8 | FromUtf8 | Fmt | SerdeJson | Language | Parser | QueryFailure | IntoInner | IoFailure

  function TypeOf(e: ExternalError): FailureType {
    match e
    case Utf8Error(_, _) => Utf8
    case FromUtf8Error(_, _) => FromUtf8
    case FmtError => Fmt
    case SerdeJsonError(_, _) => SerdeJson
    case LanguageError(_) => Language
    case ParserError(_) => Parser
    case QueryError(_, _, _, _) => QueryFailure
    case IntoInnerError(_, _) => IntoInner
    case IoError(_) => IoFailure
  }

  const NotValidUtf8: string := "Input is not valid UTF-8"
  const FailedToFormat: string := "Failed to format output"
  const CouldNotSerialiseJson: string := "Could not serialise JSON output"
  const ErrorLoadingGrammar: string := "Error while loading language grammar"
  const ErrorWhileParsing: string := "Error while parsing"
  const ErrorParsingQueryFile: string := "Error parsing query file"
  const CannotFlushBuffer: string := "Cannot flush internal buffer"
  const FileNotFound: string := "File not found"
  const CouldNotReadOrWrite: string := "Could not read or write to file"

  /**
    The FormatterError each `convert_report` puts over a failure. Every failure
    becomes an Io error except a query error, which becomes a Query error; none
    becomes one of the formatter's own failures.
   */
  function Convert(e: ExternalError): (r: FormatterError)
    ensures r.Io? || r.Query?
    ensures r.Query? <==> TypeOf(e) == QueryFailure
  {
    match e
    case Utf8Error(_, _) => Io(NotValidUtf8)
    case FromUtf8Error(_, _) => Io(NotValidUtf8)
    case FmtError => Io(FailedToFormat)
    case SerdeJsonError(_, _) => Io(CouldNotSerialiseJson)
    case LanguageError(_) => Io(ErrorLoadingGrammar)
    case ParserError(_) => Io(ErrorWhileParsing)
    case QueryError(_, _, _, _) => Query(ErrorParsingQueryFile)
    case IntoInnerError(_, _) => Io(CannotFlushBuffer)
    case IoError(kind) => Io(if kind.NotFound? then FileNotFound else CouldNotReadOrWrite)
  }

  /** The message each failure type converts to, as a table indexed by type. */
  lemma ConversionTable(e: ExternalError)
    ensures TypeOf(e) in {Utf8, FromUtf8} ==> Convert(e) == Io("Input is not valid UTF-8")
    ensures TypeOf(e) == Fmt ==> Convert(e) == Io("Failed to format output")
    ensures TypeOf(e) == SerdeJson ==> Convert(e) == Io("Could not serialise JSON output")
    ensures TypeOf(e) == Language ==> Convert(e) == Io("Error while loading language grammar")
    ensures TypeOf(e) == Parser ==> Convert(e) == Io("Error while parsing")
    ensures TypeOf(e) == QueryFailure ==> Convert(e) == Query("Error parsing query file")
    ensures TypeOf(e) == IntoInner ==> Convert(e) == Io("Cannot flush internal buffer")
  {
  }

  /** An I/O error becomes "File not found" exactly when its kind is NotFound, and one fixed message otherwise. */
  lemma IoErrorConversion(kind: IoErrorKind)
    ensures Convert(IoError(kind)) == Io("File not found") <==> kind == NotFound
    ensures kind != NotFound ==> Convert(IoError(kind)) == Io("Could not read or write to file")
  {
  }

  /**
    The conversion looks at nothing but the failure's type and, for an I/O
    error, whether the kind is NotFound. A buffered writer whose flush failed
    with a "not found" cause still converts to the flush message.
   */
  lemma ConversionIgnoresInstance(a: ExternalError, b: ExternalError)
    requires TypeOf(a) == TypeOf(b)
    requires a.IoError? ==> (a.kind == NotFound <==> b.kind == NotFound)
    ensures Convert(a) == Convert(b)
  {
  }

  /** What a report holds at one link: an external failure, or a FormatterError put over it. */
  datatype Context = External(failure: ExternalError) | Formatted(error: FormatterError)

  /**
    A report: its current context and, below it, the report it was put over.
    The chain is owned and finite; it is walked only for diagnostics.
   */
  datatype Report = Root(context: Context) | Wrapped(context: Context, prev: Report)

  /** `report.context(error)`: a new outer link over the old report, which is kept unchanged. */
  function WithContext(r: Report, error: FormatterError): (w: Report)
    ensures w.context == Formatted(error) && w.Wrapped? && w.prev == r
  {
    Wrapped(Formatted(error), r)
  }

  /**
    `ReportConversion::convert_report` for a report whose current context is an
    external failure: the converted FormatterError becomes the new context and
    the original report stays right beneath it.
   */
  function ConvertReport(r: Report): (c: Report)
    requires r.context.External?
    ensures c.context.Formatted? && c.context.error == Convert(r.context.failure)
    ensures c.Wrapped? && c.prev == r
  {
    WithContext(r, Convert(r.context.failure))
  }

  /** The contexts of a report, newest first. */
  function Chain(r: Report): (cs: seq<Context>)
    ensures |cs| >= 1 && cs[0] == r.context
  {
    match r
    case Root(c) => [c]
    case Wrapped(c, prev) => [c] + Chain(prev)
  }

  /** The context the report started from, at the bottom of the chain. */
  function Origin(r: Report): Context {
    match r
    case Root(c) => c
    case Wrapped(_, prev) => Origin(prev)
  }

  /** Puts each of `errors` over `r` in turn, the first one innermost. */
  function WithContexts(r: Report, errors: seq<FormatterError>): Report
    decreases |errors|
  {
    if errors == [] then r else WithContext(WithContexts(r, errors[..|errors| - 1]), errors[|errors| - 1])
  }

  /** A conversion adds exactly one link on top of the chain, and the chain beneath is the old one. */
  lemma ConvertReportChain(r: Report)
    requires r.context.External?
    ensures Chain(ConvertReport(r)) == [Formatted(Convert(r.context.failure))] + Chain(r)
    ensures Origin(ConvertReport(r)) == Origin(r)
  {
  }

  /**
    Putting contexts over a report keeps its whole chain beneath them and its
    origin; the new contexts read newest first.
   */
  lemma {:induction false} WithContextsChain(r: Report, errors: seq<FormatterError>)
    ensures var cs := Chain(WithContexts(r, errors));
      && |cs| == |errors| + |Chain(r)|
      && cs[|errors|..] == Chain(r)
      && (forall i :: 0 <= i < |errors| ==> cs[i] == Formatted(errors[|errors| - 1 - i]))
    ensures Origin(WithContexts(r, errors)) == Origin(r)
    decreases |errors|
  {
    if errors != [] {
      var inner := errors[..|errors| - 1];
      WithContextsChain(r, inner);
      var cs := Chain(WithContexts(r, errors));
      assert cs == [Formatted(errors[|errors| - 1])] + Chain(WithContexts(r, inner));
    }
  }

  /**
    A failure converted and then given a second context: the original failure
    is still reachable, two links down, behind the two FormatterErrors newest first.
   */
  lemma {:induction false} ConvertThenContext(e: ExternalError, outer: FormatterError)
    ensures Chain(WithContext(ConvertReport(Root(External(e))), outer))
      == [Formatted(outer), Formatted(Convert(e)), External(e)]
    ensures Origin(WithContext(ConvertReport(Root(External(e))), outer)) == External(e)
  {
    ConvertReportChain(Root(External(e)));
  }
}
