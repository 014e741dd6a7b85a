/**
  The closed set of errors the Topiary formatter may return, and the text its
  `Display` implementation writes for each of them.
 */
module FormatterErrors {
  import opened Text

  /** The various errors the formatter may return. */
  datatype FormatterError =
    | Idempotence                 // formatting the output again changed it
    | IdempotenceParsing          // formatting the output again failed to parse it
    | Internal(message: string)   // an internal invariant was violated
    | Parsing                     // tree-sitter could not parse the input without errors
    | PatternDoesNotMatch         // a query pattern had no match in the input
    | Query(message: string)      // the query file is malformed
    | Io(message: string)         // an I/O-related failure

  /** The variants that carry a message of their own. */
  predicate HasMessage(e: FormatterError) {
    e.Internal? || e.Query? || e.Io?
  }

  /** The idempotence failures, whose message asks the user to file a bug report. */
  predicate IsIdempotenceFailure(e: FormatterError) {
    e.Idempotence? || e.IdempotenceParsing?
  }

  /** The request to report a bug, with the issue tracker's URL. */
  const PleaseLogMessage: string :=
    "If this happened with the built-in query files, it is a bug. It would be\nhelpful if you logged this error at\nhttps://github.com/tweag/topiary/issues/new?assignees=&labels=type%3A+bug&template=bug_report.md"

  const IdempotenceText: string :=
    "The formatter did not produce the same\nresult when invoked twice (idempotence check).\n\n"

  const IdempotenceParsingHead: string :=
    "The formatter produced invalid output and\nfailed when trying to format twice (idempotence check).\n\n"

  /** The IdempotenceParsing text after the bug-report request, up to the flag it names. */
  const IdempotenceParsingBeforeFlag: string :=
    "\n\nThe following is the error received when running the second time, but note\nthat any line and column numbers refer to the formatted code, not the\noriginal input. Run Topiary with the "

  const IdempotenceParsingAfterFlag: string :=
    " flag to see this\ninvalid formatted code."

  const IdempotenceParsingTail: string :=
    IdempotenceParsingBeforeFlag + SkipIdempotenceFlag + IdempotenceParsingAfterFlag

  const ParsingText: string :=
    "Tree-sitter could not parse the input without errors."

  const PatternDoesNotMatchText: string :=
    "The query contains a pattern that does not match the input"

  /** The command-line flag the IdempotenceParsing message points the user to. */
  const SkipIdempotenceFlag: string := "--skip-idempotence"

  /**
    `impl Display for FormatterError`. The fixed texts are the constants above;
    the variants without a message always print something, and the Idempotence
    text ends with the bug-report request.
   */
  function Render(e: FormatterError): (r: string)
    ensures !HasMessage(e) ==> |r| > 0
    ensures e.Idempotence? ==> |r| >= |PleaseLogMessage| && r[|r| - |PleaseLogMessage|..] == PleaseLogMessage
  {
    match e
    case Idempotence => IdempotenceText + PleaseLogMessage
    case IdempotenceParsing => IdempotenceParsingHead + PleaseLogMessage + IdempotenceParsingTail
    case Parsing => ParsingText
    case PatternDoesNotMatch => PatternDoesNotMatchText
    case Internal(message) => message
    case Query(message) => message
    case Io(message) => message
  }

  /** Internal, Query and Io render exactly their message: nothing is added, in particular no bug-report request. */
  lemma RenderPassesMessageThrough(e: FormatterError)
    requires HasMessage(e)
    ensures Render(e) == e.message
  {
  }

  /** Both idempotence failures render the bug-report request with the issue URL. */
  lemma {:induction false} IdempotenceAsksForBugReport(e: FormatterError)
    requires IsIdempotenceFailure(e)
    ensures IsInfix(PleaseLogMessage, Render(e))
  {
    if e.Idempotence? {
      InfixOfConcat(IdempotenceText, PleaseLogMessage, "");
      assert IdempotenceText + PleaseLogMessage + "" == Render(e);
    } else {
      InfixOfConcat(IdempotenceParsingHead, PleaseLogMessage, IdempotenceParsingTail);
    }
  }

  /** The IdempotenceParsing message names the flag that shows the invalid output. */
  lemma IdempotenceParsingNamesFlag()
    ensures IsInfix(SkipIdempotenceFlag, Render(IdempotenceParsing))
  {
    var before := IdempotenceParsingHead + PleaseLogMessage + IdempotenceParsingBeforeFlag;
    InfixOfConcat(before, SkipIdempotenceFlag, IdempotenceParsingAfterFlag);
    assert Render(IdempotenceParsing) == before + SkipIdempotenceFlag + IdempotenceParsingAfterFlag;
  }

  /**
    Parsing and PatternDoesNotMatch render their fixed sentence, which holds no
    bug-report request.
   */
  lemma UserErrorsRenderFixedSentence(e: FormatterError)
    requires e.Parsing? || e.PatternDoesNotMatch?
    ensures Render(e) == (if e.Parsing? then ParsingText else PatternDoesNotMatchText)
    ensures !IsInfix(PleaseLogMessage, Render(e))
  {
  }

  /**
    Among the variants without a message of their own, the rendering asks for a
    bug report exactly when the variant is an idempotence failure.
   */
  lemma {:induction false} BugReportRequestIffIdempotence(e: FormatterError)
    requires !HasMessage(e)
    ensures IsInfix(PleaseLogMessage, Render(e)) <==> IsIdempotenceFailure(e)
  {
    if IsIdempotenceFailure(e) {
      IdempotenceAsksForBugReport(e);
    } else {
      UserErrorsRenderFixedSentence(e);
    }
  }

  /** The four variants without a message render to four different texts, so the text tells them apart. */
  lemma FixedRenderingsDistinct(a: FormatterError, b: FormatterError)
    requires !HasMessage(a) && !HasMessage(b)
    requires Render(a) == Render(b)
    ensures a == b
  {
  }
}
