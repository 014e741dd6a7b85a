# Topiary's error layer, modelled in Dafny

This project models the error layer of the Topiary formatter, `topiary-core/src/error.rs`. The file has three parts:

- **`FormatterError`** is the closed set of seven failures the formatter can return. `Render` models its `Display` text. The idempotence failures add a fixed request to report the bug, with the issue tracker's URL. `Internal`, `Query` and `Io` print their own message and nothing else.
- **The conversion table** (module `Conversion`) turns each collaborator failure into a `FormatterError`. The collaborators are UTF-8 decoding, `fmt`, `serde_json`, the tree-sitter language, parser and query, buffered-writer flush and `std::io`. The choice depends only on the failure's Rust type. For an `io::Error` it also depends on whether the kind is `NotFound`. Each conversion places the new error as the outer context of the report and keeps the old report unchanged beneath it. A `Report` is modelled as a singly linked chain of contexts, newest first.
- **`ErrorSpan`** (module `Diagnostics`) is the diagnostic record built from a parse failure's `NodeSpan`. A missing name or text becomes the empty string. Its `Display` prints the four zero-based coordinates of the range in one fixed sentence. Integers are printed as Rust's `{}` prints them (`Text.NatToDecimal`). The sentence can be parsed back into the same four numbers, so the printing loses nothing and shifts nothing.

The doc comment on `Internal` (`topiary-core/src/error.rs:32`) calls it a bug and asks for an issue. `Display` (`topiary-core/src/error.rs:124-126`) writes the message alone, with no bug-report request. The model follows `Display`.

## Model

| member | source | states |
|---|---|---|
| FormatterErrors.Render | topiary-core/src/error.rs:92-129 | the display text: the fixed texts are the constants of the module, copied from the source; variants without a message print a non-empty text, and the Idempotence text ends with the bug-report request; the lemmas below state its other properties |
| FormatterErrors.RenderPassesMessageThrough | topiary-core/src/error.rs:124-126 | Internal, Query and Io render exactly their message, with nothing added |
| FormatterErrors.IdempotenceAsksForBugReport | topiary-core/src/error.rs:94-108 | both idempotence failures render the bug-report request with the issue URL |
| FormatterErrors.IdempotenceParsingNamesFlag | topiary-core/src/error.rs:103-108 | the IdempotenceParsing message names the `--skip-idempotence` flag |
| FormatterErrors.UserErrorsRenderFixedSentence | topiary-core/src/error.rs:110-122 | Parsing and PatternDoesNotMatch render their exact fixed sentence, which does not hold the bug-report request |
| FormatterErrors.BugReportRequestIffIdempotence | topiary-core/src/error.rs:92-129 | among the variants without a message, the bug-report request appears if and only if the variant is an idempotence failure |
| FormatterErrors.FixedRenderingsDistinct | topiary-core/src/error.rs:96-122 | the four variants without a message render to four different texts |
| Conversion.Convert | topiary-core/src/error.rs:148-211 | every conversion is total and yields Io or Query; Query exactly for a query error; never Idempotence, IdempotenceParsing, Internal, Parsing or PatternDoesNotMatch |
| Conversion.ConversionTable | topiary-core/src/error.rs:148-195 | the exact error and message for each failure type other than `io::Error` |
| Conversion.IoErrorConversion | topiary-core/src/error.rs:197-211 | an I/O error becomes `Io("File not found")` exactly when its kind is NotFound, and `Io("Could not read or write to file")` for every other kind |
| Conversion.ConversionIgnoresInstance | topiary-core/src/error.rs:133-211 | two failures of the same type convert to the same error; for I/O errors the kinds must also agree on NotFound |
| Conversion.WithContext | topiary-core/src/error.rs:142 | `report.context(e)` makes `e` the outer context with the old report right beneath it |
| Conversion.ConvertReport | topiary-core/src/error.rs:139-143 | a converted report's context is the converted error and its predecessor is the original report, unchanged |
| Conversion.ConvertReportChain | topiary-core/src/error.rs:193 | conversion adds exactly one link on top of the old chain and keeps the original failure at the bottom |
| Conversion.WithContextsChain | topiary-core/src/error.rs:209 | after any number of contexts the old chain lies unchanged beneath them, the new ones newest first, and the origin is kept |
| Conversion.ConvertThenContext | topiary-core/src/error.rs:201-210 | a failure that is converted and then given one more context gives the chain [outer, converted, original], with the original two links down |
| Text.NatToDecimal | topiary-core/src/error.rs:233-240 | each printed coordinate is a canonical decimal numeral (no leading zero) whose value is the coordinate |
| Text.CanonicalIsRendering | topiary-core/src/error.rs:233-240 | every canonical numeral is the printing of its value, so printing is a bijection onto canonical numerals |
| Diagnostics.FromNodeSpan | topiary-core/src/error.rs:246-258 | building the span never fails; it copies the range and language; a missing location or content becomes the empty string |
| Wrappers.UnwrapOrEmpty | topiary-core/src/error.rs:250-251 | `unwrap_or_default` on a string: the value if present, else the empty string |
| Diagnostics.PositionSentence | topiary-core/src/error.rs:233-240 | the sentence's fixed words are the module's constants, copied from the source; it starts with `Parsing error between line `; PositionSentenceRoundTrip shows the four coordinates read back from it |
| Diagnostics.Render | topiary-core/src/error.rs:229-242 | the display of a span is the position sentence of its range's start and end points, and those four zero-based coordinates read back from it unchanged |
| Diagnostics.PositionSentenceRoundTrip | topiary-core/src/error.rs:233-240 | the sentence `Parsing error between line {sr}, column {sc} and line {er}, column {ec}` parses back to the same four coordinates |
| Diagnostics.RenderIdentifiesPoints | topiary-core/src/error.rs:229-242 | two spans display the same text if and only if their ranges have the same start and end points |
| Diagnostics.FromNodeSpanRendersItsRange | topiary-core/src/error.rs:229-258 | a span built from a located failure displays that failure's own zero-based points, unshifted |
| Diagnostics.RenderExample | topiary-core/src/error.rs:229-242 | for `a.rs` with range (0,0)-(0,8) the display is exactly `Parsing error between line 0, column 0 and line 0, column 8` |

## Left out

- The `rootcause` report machinery is not modelled: attachments, the `Mutable`/`SendSync`/`Local` markers and `ObjectMarkerFor`. `.context()` is modelled only as "push a new outer link over the old report". A report has one predecessor here, not a collection of children.
- The miette `Diagnostic` derive, `NamedSource::with_language` beyond storing the language name, and the `#[label]` rendering are foreign display code.
- `NodeSpan::source_span()` is not part of this model. Its result is a parameter of `FromNodeSpan`, and nothing checks that the byte span lies within the source text, because the code does not check it either.
- External failures carry a few stand-in fields for their instance data. Only the type, and an I/O error's kind, influence a conversion.
- `io::ErrorKind` is abstracted to `NotFound` or `OtherKind`, which stands for every other kind.
- The commented-out design that put the span inside variants (lines 49-90 and 113-114) is dead code and not modelled.
- The `Filename`, `Source` and `Language` newtypes have no behaviour. The `Debug` derives, the `Error` marker impls, and `Send`/`Sync` are also left out.
- Row and column are unbounded naturals. Rust's `usize` width never affects the printed text.
