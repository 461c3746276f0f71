# DARM SQL generator — a verified model

The Go program reads the text of DARM slips (municipal tax payment
slips), extracts the fields of each slip, renders one `INSERT INTO
FarrDarmsPagos` statement per slip, and consolidates the statements of a
run into a single file whose rows carry a computed `SQ_DOC`. Beside that
pipeline it holds small utilities: CPF/CNPJ check-digit validation,
Brazilian date conversion, SQL quoting and placeholders, and the
configuration defaults and validation.

This project models that core in Dafny and proves what the code promises
about it:

| file | module | what it models |
|---|---|---|
| `wrappers.dfy` | `Wrappers` | `Option` and `Result` |
| `strings.dfy` | `Strings` | the Go string and integer primitives the code relies on: `strings.TrimSpace`, `TrimLeft`, `Trim`, `Split`, `Join`, `ReplaceAll`, `strconv.Itoa`, `strconv.Atoi` (64-bit, clamped on overflow), Go's truncating `%` |
| `extraction.dfy` | `Extraction` | `extractDarmData`: each field's pattern cascade, the bar code, the revenue code and guide-number normalisations, the rejection rule and the principal←total backfill |
| `monetary.dfy` | `Monetary` | `parseMonetaryValue`, as exact integer cents |
| `insert.dfy` | `Insert` | `generateSQLInsert` as 33 value slots laid out in a fixed text, with `getDefaultValue` and `removeLeadingZeros` |
| `batch.dfy` | `Batch` | `generateSingleSQLFile`: the value-list loop that stamps `SQ_DOC`, the row filter and layout, and the file text |
| `processor.dfy` | `Processor` | the `DarmProcessor` lists kept by `processPDFFile`, as written, beside a corrected reference bookkeeping, and `getUniqueGuias` |
| `checksum.dfy`, `checksum_examples.dfy` | `Checksum`, `ChecksumExamples` | `IsValidCPF`, `IsValidCNPJ` and their test cases |
| `dates.dfy` | `Dates` | `ParseDateBR` (Go's `time.Parse("02/01/2006")`), `FormatDateBR`, `FormatDateSQL`, `ConvertDateBRToSQL`, `IsValidDate` |
| `sql_utils.dfy` | `SqlUtils` | `EscapeString`, `QuoteString`, `FormatSQLValue` without floats, `GeneratePlaceholders` |
| `config.dfy` | `Config` | `DefaultConfig`, `ValidateConfig`, and `LoadConfig` for the empty path |

The inputs the program takes from the outside are parameters of the
model:
- the PDF text;
- the current year (`time.Now().Year()`) and the millisecond timestamp of
  the batch;
- whether a file write succeeded;
- the regular expressions, as matchers `string -> Option<string>`. The bar
  code's `[\d.\s]+` and `\D` are concrete.

## Model

| member | source | states |
|---|---|---|
| Strings.TrimSpace | darm_processor.go:515 | the result has no leading or trailing white space and is no longer than the input; `TrimSpaceSlice` and `TrimSpaceAround` complete the characterisation |
| Strings.TrimSpaceSlice | darm_processor.go:515 | the result is a slice of the input with only white space cut from either end |
| Strings.TrimSpaceAround | darm_processor.go:182 | white space around a trimmed string is removed and the string itself is kept |
| Strings.Split | darm_processor.go:180 | `strings.Split` always yields at least one piece |
| Strings.SplitJoin | darm_processor.go:180 | splitting a join of pieces that do not contain the separator gives the pieces back |
| Strings.IntToString | darm_processor.go:192 | `strconv.Itoa` yields a decimal numeral, with a minus sign for a negative value |
| Strings.NatToStringParse | darm_processor.go:192 | a canonical numeral is the `Itoa` of its own value |
| Strings.ParseNatToString | darm_processor.go:192 | `Itoa` of a non-negative value reads back as that value |
| Strings.Atoi | darm_processor.go:188 | `strconv.Atoi` with the error ignored stays within the `int64` range |
| Strings.AtoiCanonical | darm_processor.go:188 | a digit string within `int64` is read as its decimal value |
| Strings.GoRem | darm_processor.go:189-190 | Go's `%` has its remainder strictly between `-b` and `b`, equal to Euclid's for a non-negative dividend and never positive for a negative one |
| Extraction.FirstMatch | darm_processor.go:514-526 | a cascade is empty exactly when no pattern matches; otherwise it holds the match of a pattern all of whose predecessors failed |
| Extraction.FirstMatchPriority | darm_processor.go:514-526 | the first pattern that matches, in source order, supplies the value, whatever later patterns would give |
| Extraction.BarcodeIsDigitPrefix | darm_processor.go:529-537 | the bar code is the first min(48, n) ASCII digits of the text, in order, so it is all digits and at most 48 long |
| Extraction.Barcode | darm_processor.go:529-537 | the bar code is all ASCII digits and at most 48 long |
| Extraction.StripHyphen | darm_processor.go:543-547 | a code found by patterns 1 and 2 has no hyphen left |
| Extraction.RevenueCode | darm_processor.go:540-560 | a code found by patterns 1 and 2 has no hyphen; the code is empty when neither they nor pattern 3 match |
| Extraction.StripHyphenOfCode | darm_processor.go:541-547 | "262-3" style codes lose only the hyphen |
| Extraction.RevenueCodeNoHyphen | darm_processor.go:541-560 | the revenue code never contains `-` when pattern 3 captures digit groups |
| Extraction.ExampleRevenueCode | darm_processor.go:541-547 | "262-3" gives "2623" |
| Extraction.NormalizeGuide | darm_processor.go:617-652 | a found guide number is non-empty and starts with `0` only when it is "0" |
| Extraction.GuideValue | darm_processor.go:617-652 | a found numeral keeps its value and becomes canonical |
| Extraction.ExtractDarmData | darm_processor.go:663-676 | nil exactly when the inscription is empty or both amounts are; otherwise the principal is non-empty, equal to the total when no principal matched, the total is unchanged and every other field is as extracted |
| Extraction.ExtractRejects | darm_processor.go:663-668 | with well-formed patterns, nil exactly when no inscription pattern matches or neither amount pattern does |
| Extraction.ExtractedShape | darm_processor.go:510-677 | an extracted slip has a numeral inscription, a canonical guide number of the matched value, a revenue code without hyphen and a bar code of at most 48 digits |
| Monetary.ParseMonetaryValue | darm_processor.go:765-791 | "" and unparsable text give "0.00"; otherwise the result is a canonical two-decimal numeral with the cents of the cleaned input |
| Monetary.Idempotent | darm_processor.go:765-791 | normalising a normalised amount changes nothing |
| Monetary.PointAmountFixed | darm_processor.go:786-787 | an amount already written as `digits.dd` comes back unchanged |
| Monetary.BrazilianAmount | darm_processor.go:771-787 | `R$` and white space, thousands dots and a decimal comma give the digits joined with a decimal point |
| Monetary.FormatOfCents | darm_processor.go:787 | a canonical two-decimal numeral is the `%.2f` rendering of its cents |
| Monetary.ExampleThousands | darm_processor.go:765-791 | "R$ 1.234,56" and "1.234,56" give "1234.56" |
| Monetary.ExampleSeparators | darm_processor.go:774-787 | "1234,56" and "1234.56" give "1234.56" |
| Monetary.ExampleMillion | darm_processor.go:765-791 | "R$ 1.000.000,00" gives "1000000.00" |
| Monetary.ExampleEmpty | darm_processor.go:766-768 | "" gives "0.00" |
| Monetary.ExampleZero | test_darm_processor.go:188 | "R$ 0,00" gives "0.00" |
| Insert.GetDefaultValue | darm_processor.go:794-799 | an empty value gives the default, a non-empty value is kept; the result is empty only when both are |
| Insert.RemoveLeadingZerosAsWritten | darm_processor.go:760-762 | as written: the result is a suffix of the input with no leading `0`, and what was removed were zeros |
| Insert.ExampleAsWrittenZeros | darm_processor.go:760-762 | as written, "0" and "000" both become "" |
| Insert.RemoveLeadingZeros | darm_processor.go:760-762 | corrected: empty only for empty input, starts with `0` only when it is "0", and a digit string keeps its value |
| Insert.RemoveLeadingZerosCanonical | darm_processor.go:760-762 | corrected: a non-empty digit string becomes its canonical numeral |
| Insert.ExampleRemoveLeadingZeros | test_darm_processor.go:208-212 | corrected: the five test cases, "000" giving "0" |
| Insert.RowSlots | darm_processor.go:727-754 | a statement has exactly 33 values |
| Insert.GenerateSQLInsert | darm_processor.go:680-757 | the statement opens with the fixed `INSERT INTO FarrDarmsPagos` column list and closes its value list with `);` |
| Insert.GuideRendering | darm_processor.go:760-762 | for a guide number as extraction leaves it, the code as written keeps it except that "0" becomes "", while the corrected function keeps it always |
| Insert.NrGuiaSlot | darm_processor.go:749 | NR_GUIA is rendered with `removeLeadingZeros` as written: the extracted guide number, but an empty value for the guide "0", where the corrected function would give "0" |
| Insert.RowDefaults | darm_processor.go:680-757 | the exercise year defaults to "2025", the revenue code to "2585", an empty due date and an empty bar code to NULL |
| Insert.RowAmountColumns | darm_processor.go:752-754 | VL_PAGO and VL_RECEITA carry the total and VL_PRINCIPAL the principal |
| Insert.TotalFallback | darm_processor.go:694-698 | the total slot is a normalised amount whose cents are the total's, or the principal's when the total is zero |
| Insert.ZeroAmount | darm_processor.go:696 | for a normalised amount, comparing with "0.00" is the same as testing for zero cents |
| Insert.DueDateShape | darm_processor.go:682-688 | a `DD/MM/YYYY` due date is rendered `'YYYY-MM-DD 00:00:00'` |
| Insert.DueDateOfValidDate | darm_processor.go:682-688 | for a calendar date the rendering agrees with `ConvertDateBRToSQL` |
| Insert.ExampleUncheckedDueDate | darm_processor.go:682-688 | "32/13/2024" is not a date, yet it is rendered `'2024-13-32 00:00:00'` |
| Insert.BarcodeSlotOfExtracted | darm_processor.go:700-710 | an extracted bar code is quoted as is, or NULL when empty |
| Insert.RowSlotsClean | darm_processor.go:727-754 | for an extracted slip every value is free of commas and outer white space |
| Batch.TrimAll | darm_processor.go:180-183 | every piece trimmed, none added or lost |
| Batch.TrimValues | darm_processor.go:180-183 | the trimming loop yields `TrimAll` of the pieces |
| Batch.SimpleRowOf | darm_processor.go:176-195 | one iteration of the first loop yields that statement's outcome |
| Batch.CollectSimpleStatements | darm_processor.go:172-196 | the first loop yields the gathered value lists, or stops on a panic |
| Batch.FormatStatements | darm_processor.go:199-224 | the second loop yields the laid-out rows of the lists with at least 33 values |
| Batch.GenerateSingleSQLFile | darm_processor.go:164-243 | the method computes `SingleFile` of its inputs |
| Batch.SingleFile | darm_processor.go:165-168 | no file exactly when there is no statement |
| Batch.PanicPropagates | darm_processor.go:186-192 | a panic on one statement ends the run, whatever follows |
| Batch.LayoutSplits | darm_processor.go:176-183 | splitting a rendered value list on `,` and trimming gives the 33 values back |
| Batch.FormatJoined | darm_processor.go:200-222 | a parenthesised list of 33 rendered values is cut back to those values and laid out |
| Batch.ConsolidateRendered | darm_processor.go:164-236 | the file holds one row per statement, in order, neither merged nor dropped, each with its own values and the SQ_DOC of its position |
| Batch.InsertRowsRendered | darm_processor.go:680-757 | a statement rendered from an extracted slip meets what the batch loops need |
| Batch.NoMatchWritesEmptyList | darm_processor.go:174-236 | when no statement matches `valuesRegex`, the file is still written, with an empty VALUES list |
| Batch.FormattedRowsAppend | darm_processor.go:199-224 | the second loop keeps the order of the lists and never adds a row |
| Batch.SqDocDistinct | darm_processor.go:185-191 | within the first 1000 statements the SQ_DOCs are distinct, whatever the guides |
| Batch.SqDocCollision | darm_processor.go:185-191 | guide "1" at position 0 and guide "0" at position 1000 get the same SQ_DOC |
| Processor.AsWrittenRunLists | darm_processor.go:454-469 | as written, every slip's guide is listed but only the written slips' statements |
| Processor.DriftAfterFailedWrite | darm_processor.go:454-469 | as written, one failed write leaves the next statement beside the failed slip's guide |
| Processor.RunLists | darm_processor.go:454-469 | corrected: both lists come from the written slips, so position k of each belongs to the same slip |
| Processor.AllWrittenAgree | darm_processor.go:454-469 | when every write succeeds, the two ways of recording agree |
| Processor.AsWrittenPaired | darm_processor.go:454-469 | as written, the statements never outnumber the guides, and the two lists have equal length exactly when no write failed |
| Processor.DarmProcessor.ProcessText | darm_processor.go:433-476 | a slip that is not extracted changes nothing; for an extracted slip the guide is appended to `GuiasProcessadas` and marked in `ProcessedGuias` whether or not the write succeeds, the statement is appended only after a successful write, the call fails exactly when the write does, and the fields stay the as-written record of the slips read |
| Processor.DarmProcessor.RecordSlip | darm_processor.go:453-469 | the guide is appended and marked before the write, the statement only after a successful one, the call fails exactly when the write does, and the lists stay the as-written record |
| Processor.DarmProcessor.constructor | darm_processor.go:91-105 | a new processor has no processed guides and no statements |
| Processor.DarmProcessor.GetUniqueGuias | darm_processor.go:335-346 | each processed guide exactly once, nothing else |
| Checksum.CheckDigitMatches | utils.go:196-213 | the weighted-sum loop accepts exactly when the digit equals the modulo-11 check digit |
| Checksum.IsAllSame | utils.go:189-194 | true exactly when all digits repeat the first |
| Checksum.IsValidCPF | utils.go:180-235 | accepts exactly the 11-digit, not one-repeated-digit, numbers whose two check digits hold |
| Checksum.IsValidCNPJ | utils.go:238-295 | accepts exactly the 14-digit, not one-repeated-digit, numbers whose two check digits hold |
| Checksum.PunctuationIgnored | utils.go:182 | validity depends only on the digits |
| Checksum.CheckDigitsDetermined | utils.go:196-232 | the base digits fix both check digits |
| Checksum.AlteredCheckDigitCPF | utils.go:196-232 | changing a check digit of a valid CPF makes it invalid |
| Checksum.AlteredCheckDigitCNPJ | utils.go:254-292 | changing a check digit of a valid CNPJ makes it invalid |
| Checksum.RepeatedDigitCPFPassesChecksum | utils.go:189-194 | a one-digit CPF passes both check digits, so only the repeated-digit test rejects it |
| Checksum.ZeroCNPJPassesChecksum | utils.go:247-252 | the all-zero CNPJ passes both check digits, so only the repeated-digit test rejects it |
| ChecksumExamples.ExampleValidCPF | test_darm_processor.go:327 | "123.456.789-09" is valid |
| ChecksumExamples.ExampleInvalidCPF | test_darm_processor.go:331 | "123.456.789-10" is not |
| ChecksumExamples.ExampleValidCNPJ | test_darm_processor.go:336 | "11.222.333/0001-81" is valid |
| ChecksumExamples.ExampleInvalidCNPJ | test_darm_processor.go:340 | "11.222.333/0001-82" is not |
| Dates.ParseDateBR | utils.go:143-145 | succeeds exactly for two-digit day, two-digit month and four-digit year making a calendar date, and returns those fields |
| Dates.FormatDateBR | utils.go:148-150 | a date with a four-digit year is rendered in the `DD/MM/YYYY` shape |
| Dates.FormatDateSQL | utils.go:158-160 | a date with a four-digit year is rendered as ten characters `YYYY-MM-DD` of digits and dashes |
| Dates.ConvertDateBRToSQL | utils.go:163-169 | succeeds exactly when parsing does, with a `YYYY-MM-DD` result |
| Dates.ConvertIsReordering | utils.go:163-169 | the conversion reorders the input's own fields |
| Dates.IsValidDate | utils.go:304-307 | true exactly when the conversion succeeds |
| Dates.FormatParsedBR | utils.go:143-150 | formatting a parsed date gives the input back |
| Dates.ParseFormattedBR | utils.go:143-150 | parsing a formatted calendar date gives the date back |
| Dates.NoWrapAround | utils.go:143-145 | an out-of-range day or month is an error, never a normalised date |
| Dates.ExampleConvert | test_darm_processor.go:313 | "15/12/2024" converts to "2024-12-15" |
| Dates.ExampleInvalid | test_darm_processor.go:358 | "32/13/2024" is rejected for its month, and is not a valid date |
| Dates.ExampleLeapDay | utils.go:143-145 | 29 February 2024 is a date |
| Dates.ExampleCommonYear | utils.go:143-145 | 29 February 2023 is not |
| Dates.ExampleOneDigitDay | utils.go:143-145 | the layout demands two-digit days: "1/12/2024" is malformed |
| SqlUtils.QuoteString | utils.go:324-326 | the literal starts and ends with a quote |
| SqlUtils.QuoteRoundTrip | utils.go:318-326 | a quoted string is a well-formed SQL literal that reads back as the original, its length the input's plus the quote count plus two |
| SqlUtils.EscapeString | utils.go:318-321 | escaping adds one character per quote and leaves text without a quote unchanged; `QuoteRoundTrip` shows it reads back as the input |
| SqlUtils.ExampleOConnor | test_darm_processor.go:368 | "O'Connor" is escaped to "O''Connor" |
| SqlUtils.FormatSQLValue | utils.go:329-350 | NULL exactly for nil and the empty string; booleans are 1 or 0; other strings are quoted |
| SqlUtils.FormatSQLValueReadsBack | utils.go:329-350 | every rendering reads back as what it stands for |
| SqlUtils.GeneratePlaceholders | utils.go:353-359 | the loop yields `count` question marks joined by ", " |
| SqlUtils.PlaceholdersShape | utils.go:353-359 | the list holds `count` placeholders and splits back into them |
| SqlUtils.ExamplePlaceholders | test_darm_processor.go:400 | 3 gives "?, ?, ?" and 0 gives "" |
| Config.ValidateConfig | config.go:132-178 | no error exactly when no guard fails; otherwise the error of the first failing guard in source order |
| Config.DefaultConfig | config.go:52-80 | the defaults pass validation |
| Config.LoadConfig | config.go:83-107 | the empty path gives exactly `DefaultConfig()`, which passes validation, without reading a file; any other path gives the outcome of reading it |
| Config.RejectionRules | config.go:134-175 | each empty directory, host or database, non-positive port or batch size, and unknown level alone is rejected |
| Config.ExampleOrder | config.go:134-177 | an empty DARM directory is reported as such, and a non-positive port is reported before an unknown log level |

## Left out

- PDF text extraction (`extractTextFromPDF`): a foreign library. The text is an input.
- Concurrency: the worker pool, semaphore, wait group and mutex of `ProcessDarms` and `processPDFFile`. The model runs slips one at a time. With several workers the guide of one slip and the statement of another can also interleave; appending both in one step, as the corrected `Processor.Record` does, would rule that out too.
- File writes, `os.Stat`, directory creation, `checkGuiaExists`, `generateReport`, `Init`, `SaveConfig`, `GetConfigPath`, `CreateDefaultConfigFile`, `FileUtils`, and the `SEM_GUIA` file name. Their effect on the model is the `writeOk` parameter of `ProcessText`.
- `time.Now()`: the year and the batch timestamp are parameters.
- The regular expressions of `extractDarmData` and `valuesRegex` are abstract matchers. What the model needs of them is stated as hypotheses: `Extraction.WellFormed` and `Batch.CapturesValueLists`. RE2 itself is not modelled.
- Monetary.ParseMonetaryValue: requires its input to clean to digits and dots, with at most two decimals and fewer than 10^15 cents. That is where `strconv.ParseFloat` and `%.2f` round-trip exactly. Exponents, `Inf`/`NaN`, signs, hexadecimal floats and float rounding are not modelled.
- Insert.RowSlots: inherits that requirement on both amounts, and so do `Batch.InsertRowsRendered` and `Processor.DarmProcessor.ProcessText`.
- Batch.ConsolidateRendered: proved for statements whose value lists `valuesOf` recovers (`CapturesValueLists`), not for arbitrary matchers.
- SqlUtils.FormatSQLValue: the `float32`/`float64` case is left out (float formatting). Values of other dynamic types are carried with their `%v` rendering.
- SqlUtils.GeneratePlaceholders: requires `count >= 0`; for a negative count Go's `make` panics.
- Config.LoadConfig: reading and decoding a non-empty path is a parameter.
- `RemoveAccents` and `CleanString` work on UTF-8 byte offsets, which Dafny strings do not represent. `IsValidEmail` is a regex wrapper. `ParseCurrency`, `FormatCurrency` and `ParseDateSQL` are float or time helpers outside the pipeline.
- Logging, `main.go` and the demo functions of `exemplo_uso.go`.

## Findings

The statement and the processor follow the code as written: NR_GUIA uses `Insert.RemoveLeadingZerosAsWritten` and `Processor.DarmProcessor` keeps the as-written lists. The corrected definitions, `Insert.RemoveLeadingZeros` and `Processor.Record`, stand beside them with the intended properties proved.

| source | as written | input that shows it | evidently intended | confidence | as-written member | corrected member |
|---|---|---|---|---|---|---|
| darm_processor.go:760-762 | `strings.TrimLeft(value, "0")` removes every leading zero | "000" and "0" give "", so a slip whose guide normalised to "0" renders an empty NR_GUIA value | "0", as the test at test_darm_processor.go:210 expects | not executed | Insert.NrGuiaSlot | Insert.ExampleRemoveLeadingZeros |
| darm_processor.go:454-469 | the guide is appended before the file write, the statement only after it succeeds | slip "1" whose write fails, then slip "2": `GuiasProcessadas` is ["1", "2"] and `AllSQLInserts` holds only the statement of "2", whose SQ_DOC is then computed from guide "1" | guide and statement appended together, so position k of both lists is the same slip | not executed | Processor.DriftAfterFailedWrite | Processor.RunLists |
