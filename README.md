# SCIM filter and attribute-path parser

A Dafny model of the parser in the UnboundID SCIM 2 SDK. This parser reads the
filter expressions and attribute paths of SCIM 2 (sections 3.4.2.2 and 3.10 of
RFC 7644). The model also covers the filter value classes the parser builds.

Modules:

- `Common`: the character classes and small sequence helpers the readers share. This includes `Trim`, the first-character-outside-a-class scan `RunEnd`, and `At`, which says a text occurs at an index.
- `JsonScalar`: the JSON scalar reader that reads a comparison value. It reads `null`, `true`, `false`, integers and strings with escapes. `Render` writes values, and it is proved to be the scanner's inverse.
- `Filters`: the `Filter` and `Path` values and the comparison operators. It holds `ComparisonFilter`'s accessors, the `equals`/`hashCode` of `EndsWithFilter` and `AndFilter`, the Java 32-bit hash wrap-around, and visitor dispatch.
- `ParserSpec`: functional reference definitions of every step of `Parser`. This covers:
  - the two tokenizers;
  - the `readFilter` loop, one function per branch;
  - `closeGrouping` and `expectsNewFilter`;
  - the `readPath` loop.
- `Parser`: the parser itself, in imperative form.
  - Class `StringReader` holds the cursor (`pos`) and the mark (`mark`). It has `Read`, `Unread`, `Mark`, `Reset` and `Skip`.
  - Methods with `while` loops model `readPathToken`, `readFilterToken`, `closeGrouping`, `readFilter` and `readPath`.
  - Each method is proved equal to its `ParserSpec` function.
- `TokenProperties` and `PathProperties`: what the tokenizers and the path reader return on each kind of input, error cases included.
- `FilterSteps`, `FilterStacks` and `FlatFilters`: the theorem that any filter made of operands joined by `and`/`or` parses with `and` binding tighter than `or`. `FilterStacks.Precedence` is the independent reference reading.
- `FilterProperties` and `GroupFilters`: the precedence cases the repository's tests list, including parentheses and `not (...)` groups.
- `FilterErrors`: rejected filters and the error each gets.
- `FilterFindings`: the two whole filters on which the code's `readFilter` and the evidently intended one part ways (see Findings).

`ParserSpec` reads filters in two ways, chosen by a `literal` flag. With the flag set, the ")" case (`CloseStep`) and the "or" case (`DrainAnds`) are the code as written. This is the reading that `Parser` implements. With the flag clear, they are the evidently intended `CloseMatchedStep` and `DrainAndRun`. The lemmas that take a `lit` parameter hold for both readings. `FlatFilters.FlatParse` holds for the code only on chains in which no "or" follows two "and"s in a row. `FilterErrors.StrayClose` and `FilterErrors.ClosesNothing` are about the intended reading only.

Errors are the datatype `ParseError`. It carries the offending position or token where the code's message does.

## Model

| member | source | states |
|---|---|---|
| Parser.StringReader.constructor | scim2-sdk-common/src/main/java/com/unboundid/scim2/utils/Parser.java:40-43 | a new reader is at position 0 with mark 0 over the given string |
| Parser.StringReader.Read | scim2-sdk-common/src/main/java/com/unboundid/scim2/utils/Parser.java:49-56 | at the end it returns -1 and does not move; otherwise it returns the character at the cursor and advances by one; the mark is unchanged |
| Parser.StringReader.Unread | scim2-sdk-common/src/main/java/com/unboundid/scim2/utils/Parser.java:61-64 | moves the cursor back by one |
| Parser.StringReader.Mark | scim2-sdk-common/src/main/java/com/unboundid/scim2/utils/Parser.java:88-92 | the mark becomes the current position |
| Parser.StringReader.Reset | scim2-sdk-common/src/main/java/com/unboundid/scim2/utils/Parser.java:97-101 | the position returns to the mark |
| Parser.StringReader.Skip | scim2-sdk-common/src/main/java/com/unboundid/scim2/utils/Parser.java:106-111 | skips min(remaining, n) characters and returns that count |
| Parser.ReadPathToken | scim2-sdk-common/src/main/java/com/unboundid/scim2/utils/Parser.java:194-239 | the token, error and final cursor equal those of `ParserSpec.PathToken` |
| ParserSpec.PathToken | scim2-sdk-common/src/main/java/com/unboundid/scim2/utils/Parser.java:194-239 | a token read is the text between the mark and the cursor, and the mark is the start position |
| Parser.SkipSpaces | scim2-sdk-common/src/main/java/com/unboundid/scim2/utils/Parser.java:362-368 | the mark is at the first non-space character, and the result is that character, or -1 exactly when only spaces remain |
| ParserSpec.SpacesEnd | scim2-sdk-common/src/main/java/com/unboundid/scim2/utils/Parser.java:362-368 | the result is at or after the start, and the character there is not a space |
| Parser.ReadFilterRun | scim2-sdk-common/src/main/java/com/unboundid/scim2/utils/Parser.java:371-429 | the token, error and final cursor equal those of `ParserSpec.FilterTokenFrom` from the mark |
| Parser.ReadFilterToken | scim2-sdk-common/src/main/java/com/unboundid/scim2/utils/Parser.java:358-430 | the token, error and final cursor equal those of `ParserSpec.FilterToken` |
| ParserSpec.FilterToken | scim2-sdk-common/src/main/java/com/unboundid/scim2/utils/Parser.java:358-430 | a token read is the text between mark and cursor, and it is never empty |
| Parser.CloseGrouping | scim2-sdk-common/src/main/java/com/unboundid/scim2/utils/Parser.java:700-777 | the loop's result, stacks and popped operator equal `ParserSpec.CloseGrouping` |
| Parser.DrainAnds | scim2-sdk-common/src/main/java/com/unboundid/scim2/utils/Parser.java:499-517 | the loop's stacks equal `ParserSpec.DrainAnds`, the "or" drain as the code writes it, which never clears its list of components |
| Parser.ReadComparison | scim2-sdk-common/src/main/java/com/unboundid/scim2/utils/Parser.java:547-670 | the filter, error and cursor equal those of `ParserSpec.ComparisonTail` |
| ParserSpec.ComparisonTail | scim2-sdk-common/src/main/java/com/unboundid/scim2/utils/Parser.java:547-670 | on success, the cursor moved forward and stays within the text |
| Parser.ReadFilter | scim2-sdk-common/src/main/java/com/unboundid/scim2/utils/Parser.java:439-690 | the filter, error and cursor equal those of `ParserSpec.ReadFilterSpec` with the literal flag set |
| ParserSpec.ReadFilterSpec | scim2-sdk-common/src/main/java/com/unboundid/scim2/utils/Parser.java:439-690 | on success, the cursor moved forward and is a valid position of the text |
| ParserSpec.FilterLoop | scim2-sdk-common/src/main/java/com/unboundid/scim2/utils/Parser.java:448-679 | on success, the cursor moved forward and is a valid position of the text |
| Parser.ReadFilterStep | scim2-sdk-common/src/main/java/com/unboundid/scim2/utils/Parser.java:450-678 | one loop iteration equals `ParserSpec.FilterStep` with the literal flag set, and the reader ends at the step's cursor |
| ParserSpec.FilterStep | scim2-sdk-common/src/main/java/com/unboundid/scim2/utils/Parser.java:450-678 | a step that continues moves the cursor forward; a step that breaks leaves it in place |
| Parser.ReadNotGroup | scim2-sdk-common/src/main/java/com/unboundid/scim2/utils/Parser.java:454-472 | equals `ParserSpec.NotStep` |
| ParserSpec.NotStep | scim2-sdk-common/src/main/java/com/unboundid/scim2/utils/Parser.java:454-472 | "not" never ends the loop; when it goes on, the cursor has moved past the "(" |
| Parser.CloseParenthesis | scim2-sdk-common/src/main/java/com/unboundid/scim2/utils/Parser.java:473-488 | equals `ParserSpec.CloseStep`, the ")" case as the code writes it, which fails only when no operator was popped |
| ParserSpec.CloseStep | scim2-sdk-common/src/main/java/com/unboundid/scim2/utils/Parser.java:473-488 | ")" never ends the loop and does not move the cursor |
| Parser.PushOr | scim2-sdk-common/src/main/java/com/unboundid/scim2/utils/Parser.java:495-520 | equals `ParserSpec.OrStep` with the literal flag set: drain the "and"s as the code does, then push "or" |
| ParserSpec.OrStep | scim2-sdk-common/src/main/java/com/unboundid/scim2/utils/Parser.java:495-520 | "or" never ends the loop and does not move the cursor |
| Parser.ReadComplexFilter | scim2-sdk-common/src/main/java/com/unboundid/scim2/utils/Parser.java:521-541 | equals `ParserSpec.ComplexStep` with the literal flag set, and the reader ends at the step's cursor |
| ParserSpec.ComplexStep | scim2-sdk-common/src/main/java/com/unboundid/scim2/utils/Parser.java:521-541 | a value filter never ends the loop; when it goes on, the cursor has moved forward |
| Parser.ReadComparisonFilter | scim2-sdk-common/src/main/java/com/unboundid/scim2/utils/Parser.java:547-670 | equals `ParserSpec.ComparisonStep`, and the reader ends at the step's cursor |
| ParserSpec.ComparisonStep | scim2-sdk-common/src/main/java/com/unboundid/scim2/utils/Parser.java:547-670 | a comparison never ends the loop; when it goes on, the cursor has moved forward |
| Parser.ReadPath | scim2-sdk-common/src/main/java/com/unboundid/scim2/utils/Parser.java:248-324 | the path or error equals `ParserSpec.PathLoop` from the start position |
| Parser.ReadPathSegment | scim2-sdk-common/src/main/java/com/unboundid/scim2/utils/Parser.java:256-316 | one loop iteration equals `ParserSpec.PathSegment` |
| ParserSpec.PathSegment | scim2-sdk-common/src/main/java/com/unboundid/scim2/utils/Parser.java:256-316 | a segment that goes on leaves the cursor at or after where it was |
| ParserSpec.LastColon | scim2-sdk-common/src/main/java/com/unboundid/scim2/utils/Parser.java:279-283 | the result is the index of a ':' and no ':' follows it |
| Parser.ParsePath | scim2-sdk-common/src/main/java/com/unboundid/scim2/utils/Parser.java:172-175 | equals `ParserSpec.ParsePathSpec`: trim, then read a path |
| Parser.ParseFilter | scim2-sdk-common/src/main/java/com/unboundid/scim2/utils/Parser.java:149-155 | equals `ParserSpec.ParseFilterSpec` with the literal flag set: trim, then read a filter outside value-filter mode |
| Filters.GetFilterType | scim2-sdk-common/src/main/java/com/unboundid/scim2/filters/AndFilter.java:40-43 | a filter's type is AND exactly for an AND filter; it is a comparison type exactly for a comparison, carrying that comparison's operator |
| Filters.ComparisonOp | scim2-sdk-common/src/main/java/com/unboundid/scim2/utils/Parser.java:627-668 | a recognised operator token equals that operator's keyword, ignoring case |
| Filters.ComparisonOpKeyword | scim2-sdk-common/src/main/java/com/unboundid/scim2/utils/Parser.java:627-668 | a token names an operator if and only if it equals that operator's keyword, ignoring case |
| Filters.KeywordsDiffer | scim2-sdk-common/src/main/java/com/unboundid/scim2/utils/Parser.java:627-668 | no token matches two operators, so the order of the if-chain does not matter |
| Filters.NewComparison | scim2-sdk-common/src/main/java/com/unboundid/scim2/filters/ComparisonFilter.java:27-64 | the filter is a comparison of the given type; `getAttributePath` returns the path; `getComparisonValue` returns the value, or JSON null when none was given |
| Filters.ComparisonText | scim2-sdk-common/src/main/java/com/unboundid/scim2/filters/ComparisonFilter.java:72-79 | the text starts with the path, a space, the operator keyword and a space; the JSON reader reads the rest back as the comparison value, ending at the text's last character |
| Filters.Wrap32 | scim2-sdk-common/src/main/java/com/unboundid/scim2/filters/EndsWithFilter.java:79-84 | the result equals the input modulo 2^32; it is the input itself when that fits in 32 bits |
| Filters.EndsWithEqualsIsIdentity | scim2-sdk-common/src/main/java/com/unboundid/scim2/filters/EndsWithFilter.java:50-73 | `equals` is false for null and for other classes; between two ends-with filters it holds exactly when they are the same value; it is reflexive |
| Filters.EndsWithHashConsistent | scim2-sdk-common/src/main/java/com/unboundid/scim2/filters/EndsWithFilter.java:79-84 | equal ends-with filters have equal hash codes |
| Filters.AndEqualsPermutation | scim2-sdk-common/src/main/java/com/unboundid/scim2/filters/AndFilter.java:49-68 | two AND filters with the same operands in another order are equal both ways |
| Filters.AndEqualsClass | scim2-sdk-common/src/main/java/com/unboundid/scim2/filters/AndFilter.java:49-58 | an AND never equals null, a filter of another class, or an OR of the same operands; it equals itself |
| Filters.AndEqualsNotSymmetric | scim2-sdk-common/src/main/java/com/unboundid/scim2/filters/AndFilter.java:60-67 | as written, AND(x, y) equals AND(x), but AND(x) does not equal AND(x, y) |
| Filters.AndHashNotConsistent | scim2-sdk-common/src/main/java/com/unboundid/scim2/filters/AndFilter.java:74-77 | as written, AND(x, y) and AND(y, x) are equal both ways, yet their hash codes differ for every operand hash under which x and y differ by anything but a multiple of 2^31 |
| Filters.AndHashSwap | scim2-sdk-common/src/main/java/com/unboundid/scim2/filters/AndFilter.java:74-77 | swapping two operands keeps the list hash exactly when their hashes differ by a multiple of 2^31 |
| Filters.AndEqualsMutualIsSetEquality | scim2-sdk-common/src/main/java/com/unboundid/scim2/filters/AndFilter.java:60-67 | corrected equality (containment both ways) holds exactly when the operand sets are equal; it is symmetric and reflexive |
| Filters.AndHashMutualConsistent | scim2-sdk-common/src/main/java/com/unboundid/scim2/filters/AndFilter.java:74-77 | under the corrected equality, equal AND filters have equal hash codes, the hash being the 32-bit sum of the hashes of the distinct operands |
| Filters.DistinctSumIsSetSum | scim2-sdk-common/src/main/java/com/unboundid/scim2/filters/AndFilter.java:74-77 | the sum over the distinct operands equals the sum over the operand set, so it depends neither on order nor on repetition |
| Filters.Visit | scim2-sdk-common/src/main/java/com/unboundid/scim2/filters/AndFilter.java:30-34 | an ends-with filter goes to the visitor's ends-with method and an AND to its AND method, with the parameter and outcome passed through |
| JsonScalar.Scan | scim2-sdk-common/src/main/java/com/unboundid/scim2/utils/Parser.java:586-611 | a value read ends at an offset inside the text |
| JsonScalar.ScanRender | scim2-sdk-common/src/main/java/com/unboundid/scim2/utils/Parser.java:586-611 | round trip: reading the rendered form of any scalar, followed by a delimiter, gives back that scalar, ending on the literal's last character |
| JsonScalar.ScanKeywordLiteral | scim2-sdk-common/src/main/java/com/unboundid/scim2/utils/Parser.java:586-611 | `null`, `true` and `false` read as their values |
| JsonScalar.ScanStringLiteral | scim2-sdk-common/src/main/java/com/unboundid/scim2/utils/Parser.java:586-611 | a quoted, escaped string reads back as its text |
| JsonScalar.ScanIntLiteral | scim2-sdk-common/src/main/java/com/unboundid/scim2/utils/Parser.java:586-611 | a rendered integer reads back as that integer |
| JsonScalar.ScanEscapedText | scim2-sdk-common/src/main/java/com/unboundid/scim2/utils/Parser.java:586-611 | the string reader undoes `EscapeText` up to the closing quote |
| JsonScalar.ScanSurrogateEscape | scim2-sdk-common/src/main/java/com/unboundid/scim2/utils/Parser.java:586-611 | a character above U+FFFF written as a high and a low surrogate escape is read as that one character |
| JsonScalar.ScanSurrogateString | scim2-sdk-common/src/main/java/com/unboundid/scim2/utils/Parser.java:586-611 | a string literal holding such an escape pair reads as the one-character string |
| JsonScalar.DecimalValue | scim2-sdk-common/src/main/java/com/unboundid/scim2/utils/Parser.java:586-611 | the decimal digits of n have the value n |
| JsonScalar.Decimal | scim2-sdk-common/src/main/java/com/unboundid/scim2/utils/Parser.java:586-611 | the decimal form is non-empty, all digits, and has no leading zero |
| JsonScalar.HexValue | scim2-sdk-common/src/main/java/com/unboundid/scim2/utils/Parser.java:586-611 | the value of k hex digits is below 16^k |
| TokenProperties.PathTokenToEnd | scim2-sdk-common/src/main/java/com/unboundid/scim2/utils/Parser.java:200-238 | path characters up to the end form the token; no characters means no token |
| TokenProperties.PathTokenNul | scim2-sdk-common/src/main/java/com/unboundid/scim2/utils/Parser.java:200-238 | a NUL character ends the token like the end of the input |
| TokenProperties.PathTokenDot | scim2-sdk-common/src/main/java/com/unboundid/scim2/utils/Parser.java:202-213 | a '.' not after ':' ends the token and is consumed; as the last character of the input it is an unexpected end of path |
| TokenProperties.PathTokenColonDot | scim2-sdk-common/src/main/java/com/unboundid/scim2/utils/Parser.java:202-230 | ".", directly after ':', is an unexpected character at its index |
| TokenProperties.PathTokenBracket | scim2-sdk-common/src/main/java/com/unboundid/scim2/utils/Parser.java:214-219 | '[' ends the token and is part of it |
| TokenProperties.PathTokenBadChar | scim2-sdk-common/src/main/java/com/unboundid/scim2/utils/Parser.java:220-230 | any other character is an unexpected character at its index |
| TokenProperties.PathTokenNone | scim2-sdk-common/src/main/java/com/unboundid/scim2/utils/Parser.java:234-238 | there is no token exactly when the input is at its end or at a NUL |
| TokenProperties.FilterTokenSkipsSpaces | scim2-sdk-common/src/main/java/com/unboundid/scim2/utils/Parser.java:362-368 | leading spaces do not change the token |
| TokenProperties.FilterTokenToEnd | scim2-sdk-common/src/main/java/com/unboundid/scim2/utils/Parser.java:371-429 | filter characters up to the end form the token |
| TokenProperties.FilterTokenSpace | scim2-sdk-common/src/main/java/com/unboundid/scim2/utils/Parser.java:373-377 | a space ends the token and is consumed |
| TokenProperties.FilterTokenDelimiter | scim2-sdk-common/src/main/java/com/unboundid/scim2/utils/Parser.java:378-409 | '(' and ')', and ']' in a value filter, form a token of their own, or end the one before them and are left unread |
| TokenProperties.FilterTokenBracket | scim2-sdk-common/src/main/java/com/unboundid/scim2/utils/Parser.java:391-396 | outside a value filter, '[' ends the token and is part of it |
| TokenProperties.FilterTokenBadChar | scim2-sdk-common/src/main/java/com/unboundid/scim2/utils/Parser.java:391-421 | other characters, '[' inside a value filter and ']' outside one are unexpected characters at their index |
| TokenProperties.FilterTokenNone | scim2-sdk-common/src/main/java/com/unboundid/scim2/utils/Parser.java:362-429 | there is no token exactly when only spaces remain, possibly before a NUL |
| PathProperties.NoTokensRoot | scim2-sdk-common/src/main/java/com/unboundid/scim2/utils/Parser.java:319-322 | a blank path is the root path with no URN and no elements |
| PathProperties.UrnRoot | scim2-sdk-common/src/main/java/com/unboundid/scim2/utils/Parser.java:274-288 | "urn:...:" with nothing after the last ':' is the URN alone |
| PathProperties.UrnAttribute | scim2-sdk-common/src/main/java/com/unboundid/scim2/utils/Parser.java:274-288 | "urn:...:a" is the URN up to the last ':' with attribute a |
| PathProperties.SubAttribute | scim2-sdk-common/src/main/java/com/unboundid/scim2/utils/Parser.java:299-306 | "a.b" is attribute a with sub-attribute b |
| PathProperties.EmptySegment | scim2-sdk-common/src/main/java/com/unboundid/scim2/utils/Parser.java:256-267 | "a..b" fails, expecting an attribute name at the second '.' |
| PathProperties.LeadingDot | scim2-sdk-common/src/main/java/com/unboundid/scim2/utils/Parser.java:256-267 | ".a" fails, expecting an attribute name at 0 |
| PathProperties.ValueFilterThenSub | scim2-sdk-common/src/main/java/com/unboundid/scim2/utils/Parser.java:290-306 | "a[b pr].c" is a with the value filter "b pr", followed by sub-attribute c |
| PathProperties.NameSegment | scim2-sdk-common/src/main/java/com/unboundid/scim2/utils/Parser.java:299-306 | a plain name token appends an element without a value filter |
| PathProperties.BracketSegment | scim2-sdk-common/src/main/java/com/unboundid/scim2/utils/Parser.java:290-296 | "a[" reads a value filter in value-filter mode, attaches it to a, and resumes after it |
| PathProperties.EmptyAfterValueFilter | scim2-sdk-common/src/main/java/com/unboundid/scim2/utils/Parser.java:256-268 | the empty token after a value filter's "]." is skipped, not an error |
| PathProperties.ValueFilterReads | scim2-sdk-common/src/main/java/com/unboundid/scim2/utils/Parser.java:542-546 | in value-filter mode, "b pr]" reads as a presence test and stops after the ']' |
| FilterProperties.AndBindsTighterThanOr | scim2-sdk-common/src/test/java/com/unboundid/scim2/FilterParsingTestCase.java:81-82 | "a pr and b pr or c pr" parses as OR(AND(a, b), c) |
| FilterProperties.OrThenAnd | scim2-sdk-common/src/test/java/com/unboundid/scim2/FilterParsingTestCase.java:87-88 | "a pr or b pr and c pr" parses as OR(a, AND(b, c)) |
| FilterProperties.AndOrReading | scim2-sdk-common/src/test/java/com/unboundid/scim2/FilterParsingTestCase.java:81-82 | the reference reading of x and y or z is OR(AND(x, y), z) |
| FilterProperties.OrAndReading | scim2-sdk-common/src/test/java/com/unboundid/scim2/FilterParsingTestCase.java:87-88 | the reference reading of x or y and z is OR(x, AND(y, z)) |
| FlatFilters.FlatParse | scim2-sdk-common/src/main/java/com/unboundid/scim2/utils/Parser.java:439-777 | any number of presence tests joined by "and"/"or" parse as the reference reading, in which "and" binds tighter than "or"; for the code as written this needs that no "or" follows two "and"s in a row (corrected half of a finding) |
| FlatFilters.FlatAnd | scim2-sdk-common/src/main/java/com/unboundid/scim2/utils/Parser.java:489-494 | operands joined only by "and" parse as one flat AND, in the code as written and in the intended reading |
| FlatFilters.FlatOr | scim2-sdk-common/src/main/java/com/unboundid/scim2/utils/Parser.java:495-520 | operands joined only by "or" parse as one flat OR, in the code as written and in the intended reading |
| FilterStacks.Runs | scim2-sdk-common/src/main/java/com/unboundid/scim2/utils/Parser.java:489-520 | the runs between "or"s are non-empty, and there is at least one |
| FilterStacks.NoOrIsAnd | scim2-sdk-common/src/main/java/com/unboundid/scim2/utils/Parser.java:489-494 | without "or", the reference reading is a single AND |
| FilterStacks.NoAndIsOr | scim2-sdk-common/src/main/java/com/unboundid/scim2/utils/Parser.java:495-520 | without "and", the reference reading is a single OR |
| FilterStacks.AndPush | scim2-sdk-common/src/main/java/com/unboundid/scim2/utils/Parser.java:489-494 | "and" followed by an operand pushes both onto the stacks |
| FilterStacks.OrPush | scim2-sdk-common/src/main/java/com/unboundid/scim2/utils/Parser.java:495-520 | "or" turns the pending "and" run into its group, leaving one operand per run and only "or"s on the stack; the code's drain does so when the run has at most two operands |
| FilterStacks.DrainRun | scim2-sdk-common/src/main/java/com/unboundid/scim2/utils/Parser.java:499-517 | in the intended drain, k "and"s on top of the stack join the top k+1 operands into one AND |
| FilterStacks.DrainShortRun | scim2-sdk-common/src/main/java/com/unboundid/scim2/utils/Parser.java:499-517 | the code's drain on a run of one or two operands leaves the run's group, as the intended drain does |
| FilterSteps.DrainPair | scim2-sdk-common/src/main/java/com/unboundid/scim2/utils/Parser.java:499-517 | with one "and" between the two top operands, both drains leave AND(x, y) and the stack below unchanged |
| FilterStacks.CloseRun | scim2-sdk-common/src/main/java/com/unboundid/scim2/utils/Parser.java:710-755 | closeGrouping pops a run of one repeated operator together with its operands |
| FilterStacks.FinishStacks | scim2-sdk-common/src/main/java/com/unboundid/scim2/utils/Parser.java:681-689 | at the end of the input, closeGrouping turns the stacks into the reference reading |
| GroupFilters.GroupFirst | scim2-sdk-common/src/test/java/com/unboundid/scim2/FilterParsingTestCase.java:83-100 | "(a op b) op2 c" and "not (a op b) op2 c" keep the group as the first operand, whatever the precedence |
| GroupFilters.GroupLast | scim2-sdk-common/src/test/java/com/unboundid/scim2/FilterParsingTestCase.java:89-96 | "a op2 (b op c)" and "a op2 not (b op c)" keep the group as the second operand |
| GroupFilters.AndOrNot | scim2-sdk-common/src/test/java/com/unboundid/scim2/FilterParsingTestCase.java:85-86 | "a pr and b pr or not (c pr)" parses as OR(AND(a, b), NOT(c)) |
| GroupFilters.OrAndNot | scim2-sdk-common/src/test/java/com/unboundid/scim2/FilterParsingTestCase.java:91-92 | "a pr or b pr and not (c pr)" parses as OR(a, AND(b, NOT(c))) |
| GroupFilters.CloseGroupOf2 | scim2-sdk-common/src/main/java/com/unboundid/scim2/utils/Parser.java:473-488 | ")" after "(x op y" or "not (x op y" leaves the combined group, negated under "not" |
| GroupFilters.CloseNot | scim2-sdk-common/src/main/java/com/unboundid/scim2/utils/Parser.java:473-488 | ")" after "not (x" leaves NOT(x) |
| GroupFilters.NotPresent | scim2-sdk-common/src/main/java/com/unboundid/scim2/utils/Parser.java:454-488 | "not (c pr)" reads as NOT(c pr) and the reading resumes after the ')' |
| FilterErrors.UnclosedGroup | scim2-sdk-common/src/main/java/com/unboundid/scim2/utils/Parser.java:681-689 | a "(" or "not (" still open at the end is an unexpected end of filter |
| FilterErrors.UnclosedLoop | scim2-sdk-common/src/main/java/com/unboundid/scim2/utils/Parser.java:700-777 | closeGrouping at the end of the input fails on any opener left on the stack |
| FilterErrors.StrayClose | scim2-sdk-common/src/main/java/com/unboundid/scim2/utils/Parser.java:473-488 | in the intended reading, ")" with no opener on the stack is always rejected (corrected half of a finding) |
| FilterErrors.UnexpectedEndOnly | scim2-sdk-common/src/main/java/com/unboundid/scim2/utils/Parser.java:700-777 | closeGrouping's only failure is an unexpected end of filter |
| FilterErrors.EmptyFilter | scim2-sdk-common/src/test/java/com/unboundid/scim2/FilterParsingTestCase.java:116 | "" is an unexpected end of filter |
| FilterErrors.UnclosedParenthesis | scim2-sdk-common/src/test/java/com/unboundid/scim2/FilterParsingTestCase.java:136 | "(a pr" is an unexpected end of filter |
| FilterErrors.UnopenedParenthesis | scim2-sdk-common/src/test/java/com/unboundid/scim2/FilterParsingTestCase.java:137 | "a pr)" fails with no matching "(" at the ')' |
| FilterErrors.ClosesNothing | scim2-sdk-common/src/main/java/com/unboundid/scim2/utils/Parser.java:473-482 | in the intended reading, "a pr and b pr)" fails with no matching "(" at the ')' (corrected half of a finding) |
| FilterErrors.CloseAfterAnd | scim2-sdk-common/src/main/java/com/unboundid/scim2/utils/Parser.java:473-482 | ")" right after "x and y" with nothing below: the code's step leaves AND(x, y) and goes on, the intended step rejects it |
| FilterErrors.DanglingConnective | scim2-sdk-common/src/test/java/com/unboundid/scim2/FilterParsingTestCase.java:139 | "a pr and" and "a pr or" are unexpected ends of filter |
| FilterErrors.NoSecondOperand | scim2-sdk-common/src/main/java/com/unboundid/scim2/utils/Parser.java:748-764 | a connective with one operand under it is an unexpected end at any cursor |
| FilterErrors.NotWithoutParenthesis | scim2-sdk-common/src/test/java/com/unboundid/scim2/FilterParsingTestCase.java:142 | "not a pr" fails, expecting "(" at index 4 |
| FilterErrors.MissingValue | scim2-sdk-common/src/test/java/com/unboundid/scim2/FilterParsingTestCase.java:124 | "a op" without a value, for any operator but "pr", is an unexpected end of filter |
| FilterErrors.NoValue | scim2-sdk-common/src/main/java/com/unboundid/scim2/utils/Parser.java:586-625 | an operator other than "pr" at the end of the input is an unexpected end of filter |
| FilterErrors.MissingConnective | scim2-sdk-common/src/test/java/com/unboundid/scim2/FilterParsingTestCase.java:138 | "a pr b pr" fails, naming the token b at its index |
| FilterErrors.NameAfterFilter | scim2-sdk-common/src/main/java/com/unboundid/scim2/utils/Parser.java:671-677 | a name where a connective is expected is an unexpected token at its index |
| FilterFindings.CloseStepCorrection | scim2-sdk-common/src/main/java/com/unboundid/scim2/utils/Parser.java:473-488 | the intended ")" differs from the code's only by turning an acceptance into a missing-"(" error, and changes nothing when an opener was popped |
| FilterFindings.ClosesNothingAsWritten | scim2-sdk-common/src/main/java/com/unboundid/scim2/utils/Parser.java:473-482 | the code parses "a pr and b pr)" as AND(a pr, b pr); the intended reading rejects it at the ')' |
| FilterFindings.AndRunBeforeOr | scim2-sdk-common/src/main/java/com/unboundid/scim2/utils/Parser.java:499-517 | the code's drain turns "a and b and c" before "or" into AND(a, AND(b, c), b, c); the intended drain gives AND(a, b, c) |
| FilterFindings.AndRunThenOr | scim2-sdk-common/src/main/java/com/unboundid/scim2/utils/Parser.java:499-517 | the code parses "a pr and b pr and c pr or d pr" as OR(AND(a, AND(b, c), b, c), d); the intended reading gives OR(AND(a, b, c), d) |

## Left out

- Jackson's JSON reader is replaced by `JsonScalar.Scan`. That scanner reads `null`, `true`, `false`, integers without a fraction, and strings with the escapes of section 7 of RFC 8259. A high and a low surrogate escape in a row are read as one character above U+FFFF. Decimals, fractions and exponents are reported as malformed, so "urn:extension:members eq 25.52" is not modelled.
- JsonScalar.Scan: a lone surrogate escape (\uD800 to \uDFFF outside a high-low pair) is reported as malformed. Jackson accepts it, but a Dafny string cannot hold a lone surrogate.
- Filters.AndEquals: operands are compared by structural equality, not by each operand's own `equals`. An AND nested inside an AND is therefore compared structurally, not by the containment test.
- Exception classes and message texts are left out. Each error is a `ParseError` constructor, carrying the position or token the message names.
- `Character.isLetterOrDigit`, `equalsIgnoreCase` and `toLowerCase` are modelled on ASCII letters and digits only.
- `StringReader`'s `java.io.Reader` plumbing (`read(char[], int, int)`, `ready`, `markSupported`, `close`) is left out because the parser never calls it.
- Java `int` overflow is written out only where it matters, in the hash codes (`Filters.Wrap32`). The hash codes of `Path` and of JSON values are parameters.
- `SchemaResource` is not part of this model.
- `Path`, `Filter`, `CombiningFilter`, `FilterType` and `FilterVisitor` are not shown in the repository's core files. They are modelled as plain constructors. `Filter.and` and `Filter.or` are assumed to copy their list, and `Path.fromString` is assumed to call `parsePath`.
- `Filters.PathText` (`Path.toString`) leaves out value filters.
- A nested value filter such as "a[b[c pr]]" is rejected, as the code does: '[' is not a token character in value-filter mode. This model follows the code, not the RFC grammar.
- `Parser.ReadFilterRun` merges the code's '(' / ')' branch and its ']' branch, which have identical bodies. `readFilterToken` is split into `SkipSpaces` followed by `ReadFilterRun`.
- Precedence is proved for every text built from presence tests joined by "and"/"or" (`FlatFilters.FlatParse`), and for the grouped cases. It is not proved for arbitrary comparison operands.
- Filters.Visit: only `EndsWithFilter` and `AndFilter` are modelled classes. The other filter classes share one `visitOther` method.

## Findings

| source | as written | input that shows it | evidently intended | confidence | as-written member | corrected member |
|---|---|---|---|---|---|---|
| scim2-sdk-common/src/main/java/com/unboundid/scim2/utils/Parser.java:473-482 | ")" is rejected only when closeGrouping popped no operator at all | "a pr and b pr)" is accepted as AND(a pr, b pr) | a ")" with no "(" or "not (" under it is a missing-opener error | not executed | FilterFindings.ClosesNothingAsWritten | FilterErrors.ClosesNothing |
| scim2-sdk-common/src/main/java/com/unboundid/scim2/utils/Parser.java:499-517 | the "or" branch collects operands into a list it never clears, and pushes an AND of the whole list on every pass | "a pr and b pr and c pr or d pr" gives OR(AND(a, AND(b, c), b, c), d) | the run of "and"s becomes one AND(a, b, c) | not executed | FilterFindings.AndRunThenOr | FlatFilters.FlatParse |
| scim2-sdk-common/src/main/java/com/unboundid/scim2/filters/AndFilter.java:60-67 | `equals` checks containment in one direction only | AND(x, y) equals AND(x), but AND(x) does not equal AND(x, y) | equality is symmetric: the same operands both ways | not executed | Filters.AndEqualsNotSymmetric | Filters.AndEqualsMutualIsSetEquality |
| scim2-sdk-common/src/main/java/com/unboundid/scim2/filters/AndFilter.java:74-77 | `hashCode` is the list hash, which depends on order, while `equals` ignores order | AND(x, y) and AND(y, x) are equal but hash differently whenever the hashes of x and y differ by anything but a multiple of 2^31 | equal filters have equal hash codes | not executed | Filters.AndHashNotConsistent | Filters.AndHashMutualConsistent |
