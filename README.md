# Bills: a verified model of the bill-keeping core

The repository is a bill-keeping tool. Monthly bills are plain text files:
a `DATE:YYYYMM` line, a `REMARK:` line, then parent categories (upper-case
titles), sub-categories (lower-case titles) and content lines (an amount,
a description and an optional `//` comment). The tool classifies these
lines, parses them into records, verifies the bill's format, rewrites a
bill (summing lines, adding recurring "auto-renewal" items, cleaning and
re-rendering its tree), turns it into JSON, and exports monthly and yearly
reports through format plugins. A small Python driver compiles the
generated documents to PDF.

This project models that core in Dafny and proves properties of the model.
There is one module per source file:

| module | file | what it models |
|---|---|---|
| `Strings` | `strings.dfy` | C-locale character classes, `trim`, `find`/`rfind`, `std::stoi` on leading digits, decimal rendering |
| `LineValidation` | `line_validator.dfy` | the line classifier of `Bills_Master/parsing/Line_Validator.cpp` |
| `SectionParsing` | `section_parser.dfy` | the DATE / REMARK / content machine of `Bills_Master/parsing/Bill_Parser.cpp`, as a class with its error list |
| `OrderParsing` | `order_parser.dfy` | the order-counting parser of `BillParser.cpp`, as a class with its counters and records |
| `FormatVerification` | `format_verifier.dfy` | the EXPECT_PARENT / EXPECT_SUB / EXPECT_CONTENT verifier and its end-of-file checks |
| `BillTree` | `bill_tree.dfy` | the parent / sub-item / content tree both modifiers build |
| `RenewalBlocks` | `renewal.dfy` | line summing and the auto-renewal insertion shared by the two modifiers |
| `BillModification` | `bill_modifier.dfy` | the `cell` bill modifier: split, renew, parse, cleanup, render |
| `ModifierParsing` | `modifier_parser.dfy` | the structure parser of the application's modifier |
| `BillProcessing` | `bill_processor.dfy` | the application's auto-renewal pass |
| `JsonFormatting` | `json_formatter.dfy` | content-line parsing, income/expense classification and totals of the JSON formatter |
| `MonthTexFormatting` | `month_tex.dfy` | LaTeX escaping and the no-data monthly report |
| `QueryExport` | `query_facade.dfy` | the export dispatch, the month-range filter and the export-all rules |
| `CommandLine` | `command_facade.dfy` | the bills master command line: flag parsing and command dispatch |
| `LogArguments` | `log_args.dfy` | the command line of the bill log generator |
| `PathBuilding` | `path_builder.dfy` | where a bill's JSON output is written |
| `ConfigValidation` | `config_validator.dfy` | the shape checks of the two JSON configuration files |
| `PluginLoading` | `plugin_loader.dfy` | plugin file filtering, format names and the factory map |
| `CompileDriver` | `compiler.dfy` | `compiler.py`: command builders, the mirrored output tree, backend dispatch and the summary |

Code that changes state step by step is modelled as such:
- Parsers, the verifier, the command facade, the path builder and the plugin loader are classes, with `modifies` clauses on their methods.
- Loops become `while` loops with invariants.

Each such method is proved against a specification function. The properties are then proved about that function as lemmas.

The world outside the program is passed in as parameters:
- `Host` in `PluginLoading`: which files are regular, which libraries open, which symbols they export.
- `Backend` in `QueryExport`: which months the metadata lists, and whether each export succeeds.
- `Controller` in `CommandLine`.
- `Environment` in `CompileDriver`: `abspath`, `walk`, `makedirs`, the subprocess outcome and the timings.
- The `sumLine` and `sortContents` functions in the modifiers.

## Model

| member | source | states |
|---|---|---|
| Strings.TrimSpec | Bills_Master/parsing/Line_Validator.cpp:52-64 | trimming yields "" exactly for an all-whitespace line; otherwise the result neither starts nor ends with whitespace, and it is a middle slice of the input with only whitespace around it |
| Strings.TrimIdempotent | Bills_Master/parsing/Line_Validator.cpp:52-64 | trimming twice gives the same result as trimming once |
| LineValidation.IsValidChildForParent | Bills_Master/parsing/Line_Validator.cpp:43-50 | a child is allowed under a parent exactly when the parent is configured and the child is in its configured set |
| LineValidation.Validate | Bills_Master/parsing/Line_Validator.cpp:66-71 | the kind is `empty` exactly when the line is all whitespace, and then there are no matches; every other kind has at least one match, and an item has exactly two |
| LineValidation.ValidateDate | Bills_Master/parsing/Line_Validator.cpp:76-85 | a line is a date exactly when its trimmed text is `DATE:` and six digits, and the match is those digits; any other `DATE:` line is unrecognized and the match is the whole trimmed line |
| LineValidation.ValidateRemark | Bills_Master/parsing/Line_Validator.cpp:86-90 | a line is a remark exactly when its trimmed text starts with `REMARK:`, and the match is the text after it |
| LineValidation.ValidateItem | Bills_Master/parsing/Line_Validator.cpp:92-109 | a line is an item exactly when its trimmed text starts with a digit, and it then has two matches |
| LineValidation.ValidateChild | Bills_Master/parsing/Line_Validator.cpp:111-124 | a line starting with a lower-case letter is a child exactly when every character is lower case or `_`, and the match is the trimmed line; otherwise it is unrecognized with the trimmed line as its match |
| LineValidation.ValidateParent | Bills_Master/parsing/Line_Validator.cpp:126-136 | a line starting with an upper-case letter that is not a header is a parent when it is a configured key and an invalid parent otherwise; the match is the trimmed line |
| LineValidation.SplitItemSpec | Bills_Master/parsing/Line_Validator.cpp:94-108 | an item splits into an amount with no space in it, a gap of spaces and tabs that starts with the first space, and a description; with no space the whole line is the amount and the description is empty |
| LineValidation.ItemSplit | Bills_Master/parsing/Line_Validator.cpp:92-109 | the two matches of an item are the split of its trimmed line, which does not end in whitespace |
| SectionParsing.SectionParser.Reset | Bills_Master/parsing/Bill_Parser.cpp:11-17 | the parser expects a DATE line with no date, parent or child and line number 0 |
| SectionParsing.EmptyLineStep | Bills_Master/parsing/Bill_Parser.cpp:33-38 | a blank line only advances the line number, in every state |
| SectionParsing.DateStep | Bills_Master/parsing/Bill_Parser.cpp:41-50 | a DATE line opens a new section from any state: date set, parent and child cleared, a REMARK expected; it adds an error only where a REMARK was expected, and no record |
| SectionParsing.MissingRemarkFallsThrough | Bills_Master/parsing/Bill_Parser.cpp:52-65 | a line other than a REMARK right after a DATE is reported as a missing REMARK, and is then handled exactly like a content line |
| SectionParsing.ContentKeepsErrors | Bills_Master/parsing/Bill_Parser.cpp:65-111 | handling a content line only appends to the errors |
| SectionParsing.ItemWithoutContext | Bills_Master/parsing/Bill_Parser.cpp:89-99 | an item with neither a parent nor a child gives the two context errors and no record |
| SectionParsing.RunConsistent | Bills_Master/parsing/Bill_Parser.cpp:32-113 | after any sequence of lines the parser is consistent: no context and no records while expecting the first DATE, a six-digit date once a section is open, and only a configured parent as context |
| SectionParsing.RecordsWellFormed | Bills_Master/parsing/Bill_Parser.cpp:100-107 | every record handed on has a non-empty configured parent, a child allowed under it, and a six-digit date |
| SectionParsing.RunProgress | Bills_Master/parsing/Bill_Parser.cpp:32-34 | the line number grows by the number of lines read, and errors and records only ever grow |
| SectionParsing.SectionParser.HandleContent | Bills_Master/parsing/Bill_Parser.cpp:65-111 | the parser's fields, errors and records after the content branch are those of the content step of the line-by-line model |
| SectionParsing.SectionParser.ParseLine | Bills_Master/parsing/Bill_Parser.cpp:32-113 | one loop iteration moves the parser's state exactly as the model's step does |
| SectionParsing.SectionParser.ParseClassified | Bills_Master/parsing/Bill_Parser.cpp:33-113 | once the line is classified, the line number advances and the state, errors and records move as the model step on that classification says, an empty line changing nothing else |
| SectionParsing.SectionParser.ParseFile | Bills_Master/parsing/Bill_Parser.cpp:19-121 | a file that cannot be opened is an error; otherwise the errors and records are those of running the model over the file's lines from the reset state, with the end-of-file check appended |
| SectionParsing.SectionParser.constructor | Bills_Master/parsing/Bill_Parser.cpp:7-17 | a new parser keeps the category rules it is given and starts like a reset one: expecting a DATE, with no date, parent or child and line number 0 |
| OrderParsing.MatchItem | BillParser.cpp:15 | a matched item line starts with a digit; the amount is a non-empty prefix of the line and the description a suffix without a line break |
| OrderParsing.ClassifyPriority | BillParser.cpp:74-157 | the patterns are tried in order: a `DATE:` line, which would also match the parent pattern, is a date; an item is a line that is neither date nor remark and matches the item pattern; a parent is a line that matches the parent pattern and none of the earlier ones |
| OrderParsing.DateResets | BillParser.cpp:75-89 | a DATE line resets the three counters and both current orders and appends one date record carrying the line number and the six digits |
| OrderParsing.ItemNeedsContext | BillParser.cpp:102-106 | an item line yields a record exactly when a parent and a child are both current; otherwise only the line number changes |
| OrderParsing.RecordsNumbered | BillParser.cpp:101-157 | after any input the k-th item under a child gets order k and points at that child and its parent, the k-th child under a parent gets order k, the k-th parent since the date gets order k; records carry strictly increasing line numbers within the lines read |
| OrderParsing.RunLineNumber | BillParser.cpp:65 | the line number equals the number of lines read, blank ones included |
| OrderParsing.RecordsGrow | BillParser.cpp:64-161 | records are only appended: parsing more lines keeps every earlier record |
| OrderParsing.RunConcat | BillParser.cpp:55-57 | parsing two blocks of lines one after the other is parsing their concatenation |
| OrderParsing.OrderParser.Reset | BillParser.cpp:21-29 | the records are cleared and every counter, current order and the line number are zero |
| OrderParsing.OrderParser.ParseLine | BillParser.cpp:64-161 | the parser's fields after one line are the model's step on the fields before |
| OrderParsing.OrderParser.ApplyShape | BillParser.cpp:74-157 | each matched branch updates the counters and appends its record as the model's effect of that pattern |
| OrderParsing.OrderParser.ParseFile | BillParser.cpp:45-58 | a file that cannot be opened leaves the parser unchanged; otherwise the parser holds the model's result of the file's lines from the reset state |
| OrderParsing.OrderParser.constructor | BillParser.cpp:17-29 | a new parser has no records and all of its line, order and item counters at zero |
| FormatVerification.ProcessLineKeeps | Bills_Master/src/reprocessing/validator/verifier/BillFormatVerifier.cpp:49-65 | every non-empty line keeps the scan invariant: each registered parent is listed once; after a parent a sub-title is expected with none current; in the content state the current sub-title is registered under the current parent |
| FormatVerification.ScanBodyKeeps | Bills_Master/src/reprocessing/validator/verifier/BillFormatVerifier.cpp:32-36 | the invariant holds after scanning any body, blank lines skipped |
| FormatVerification.ExpectSubAddsNoWarning | Bills_Master/src/reprocessing/validator/verifier/BillFormatVerifier.cpp:54-60 | while a sub-title is expected no sub-title is current, so the missing-content warning of that case never fires |
| FormatVerification.ParentOpens | Bills_Master/src/reprocessing/validator/verifier/BillFormatVerifier.cpp:97-105 | a configured parent title registers the parent, makes it current and expects a sub-title, with no error |
| FormatVerification.InvalidSubStillCounts | Bills_Master/src/reprocessing/validator/verifier/BillFormatVerifier.cpp:118-124 | an invalid sub-title is reported, yet it becomes current with a count of 0 and content is expected |
| FormatVerification.ContentCountsOnce | Bills_Master/src/reprocessing/validator/verifier/BillFormatVerifier.cpp:145-150 | a content line adds one to the current sub-title's count and changes no other count, key, error, warning or state |
| FormatVerification.BadHeaderStops | Bills_Master/src/reprocessing/validator/verifier/BillFormatVerifier.cpp:24-26 | a malformed header is the only finding: the body is not scanned and no parent is checked |
| FormatVerification.HeaderAccepts | Bills_Master/src/reprocessing/validator/verifier/BillFormatVerifier.cpp:67-95 | the header passes exactly when there are two lines, the first `DATE:` with six digits and the second starting with `REMARK:` |
| FormatVerification.PostChecksExact | Bills_Master/src/reprocessing/validator/verifier/BillFormatVerifier.cpp:153-174 | the end-of-file errors name exactly the parents without sub-titles, and the warnings exactly the parents whose sub-titles all lack content; nothing else is added |
| FormatVerification.VerdictIgnoresWarnings | Bills_Master/src/reprocessing/validator/verifier/BillFormatVerifier.cpp:44-46 | the verdict is true exactly when the scan recorded no error and every registered parent has a sub-title, whatever the warnings |
| FormatVerification.BillFormatVerifier.Validate | Bills_Master/src/reprocessing/validator/verifier/BillFormatVerifier.cpp:13-47 | a file that cannot be opened gives only that error; otherwise the report is the model's verdict on its lines and the structure is the one the scan built; the result is true exactly when there is no error |
| FormatVerification.BillFormatVerifier.PostCheck | Bills_Master/src/reprocessing/validator/verifier/BillFormatVerifier.cpp:153-174 | the loop over the parents produces the model's end-of-file report |
| FormatVerification.BillFormatVerifier.constructor | Bills_Master/src/reprocessing/validator/verifier/BillFormatVerifier.cpp:9-11 | a new verifier holds an empty bill structure |
| BillModification.SplitJoin | cell/reprocessor/BillModifier.cpp:323-331 | lines without newlines, each written with a trailing newline and followed by any text, split back into exactly those lines followed by the split of that text |
| BillModification.SplitIntercalate | cell/reprocessor/BillModifier.cpp:323-331 | lines without newlines joined by single newlines, the last one non-empty, split back into exactly those lines (a final newline does not start another line) |
| BillModification.MetaBodySpec | cell/reprocessor/BillModifier.cpp:169-180 | without metadata preservation no line is set aside; every line set aside is a `DATE:`/`REMARK:` line; every kept body line is non-empty and already trimmed; no line is counted twice |
| BillModification.RenewItems | cell/reprocessor/BillModifier.cpp:86-107 | renewing the items of one category adds at most one line per item and removes none |
| BillModification.RenewItemsKeepsPrefix | cell/reprocessor/BillModifier.cpp:79-107 | the lines up to and including the category header are never changed |
| BillModification.AutoRenewLength | cell/reprocessor/BillModifier.cpp:66-110 | the whole auto-renewal pass removes no line and adds at most one line per configured item |
| BillModification.AbsentCategorySkipped | cell/reprocessor/BillModifier.cpp:73-76 | a category whose title is not a line of the bill changes nothing |
| BillModification.PerformAutoRenewal | cell/reprocessor/BillModifier.cpp:66-110 | the loop over categories and their items computes the auto-renewal function, category by category in the order the rules are given, for any such order; the configuration keeps them in a map keyed by category, so each category comes once, in key order |
| BillModification.RenewCategoryLines | cell/reprocessor/BillModifier.cpp:68-109 | the loop for one category renews its items one after the other under the first matching header, the block being recomputed after each insertion |
| BillModification.BuildSpec | cell/reprocessor/BillModifier.cpp:182-213 | the tree holds, in order, `Default Parent` when the first title is not followed by a title, then every body line from the first title on (content before the first title is dropped); its parent titles are that default and exactly the titles followed by a title |
| BillModification.ParseIntoStructure | cell/reprocessor/BillModifier.cpp:163-215 | the aside metadata lines and the tree are those of the specification functions for the set-aside split and the tree build |
| BillModification.BuildStructure | cell/reprocessor/BillModifier.cpp:182-213 | the tree loop, tracking the current parent and current sub-item, builds the specified tree |
| BillModification.CleanSubsSpec | cell/reprocessor/BillModifier.cpp:235-241 | removing empty sub-items leaves only sub-items with content, keeps every content line in order, and changes nothing when none is empty |
| BillModification.CleanupTidy | cell/reprocessor/BillModifier.cpp:233-251 | after cleanup no parent is without sub-items and no sub-item is without content |
| BillModification.CleanupKeepsContents | cell/reprocessor/BillModifier.cpp:233-251 | cleanup drops no content line and keeps their order |
| BillModification.CleanupOfTidy | cell/reprocessor/BillModifier.cpp:233-251 | cleanup of a tree that is already tidy is the identity |
| BillModification.CleanupIdempotent | cell/reprocessor/BillModifier.cpp:233-251 | cleaning up twice is the same as cleaning up once |
| BillModification.BodyAsLines | cell/reprocessor/BillModifier.cpp:268-289 | with one newline everywhere, the rendered parents are their flattened lines (titles, sub-titles, contents) joined by newlines |
| BillModification.RenderRoundTrip | cell/reprocessor/BillModifier.cpp:254-291 | with the default formatting, splitting the rendered bill gives back the metadata lines, one empty separator line when there are both metadata and parents, then every line of the tree in order |
| BillModification.RenderMetadataFirst | cell/reprocessor/BillModifier.cpp:257-265 | for any formatting: without parents the text is the metadata lines each ended by a newline; with both, it starts with them, an empty line and the first parent title; without metadata it is the rendered parents alone |
| BillModification.Reconstruct | cell/reprocessor/BillModifier.cpp:254-291 | the string-stream loops over metadata, parents, sub-items and contents produce the rendered bill |
| BillModification.Modify | cell/reprocessor/BillModifier.cpp:46-54 | the result is the bill split into lines, summed and auto-renewed when enabled, parsed, sorted and cleaned up when enabled, and rendered with the configured formatting, in that order |
| RenewalBlocks.TitleFromSpec | cell/reprocessor/BillModifier.cpp:312-321 | scanning from a position succeeds exactly when the first non-space character from there exists and is not a digit |
| RenewalBlocks.IsTitleSpec | apps/bills_master/src/reprocessing/modifier/processor/BillProcessor.cpp:97-103 | a line is a title exactly when it has a non-space character whose first one is not a digit; an empty or all-space line is never a title |
| RenewalBlocks.DigitLineIsNoTitle | apps/bills_master/src/reprocessing/modifier/processor/BillProcessor.cpp:97-103 | a line starting with a digit, such as an inserted renewal line, is not a title |
| RenewalBlocks.SumLines | apps/bills_master/src/reprocessing/modifier/processor/BillProcessor.cpp:12-14 | summing keeps the number of lines and replaces each line by its own summed form |
| RenewalBlocks.FindLine | apps/bills_master/src/reprocessing/modifier/processor/BillProcessor.cpp:26-29 | the result is the first line equal to the header, and there is none exactly when no line equals it |
| RenewalBlocks.BlockEnd | apps/bills_master/src/reprocessing/modifier/processor/BillProcessor.cpp:31-35 | the block end is the first title or empty line at or after the start, or the end of the bill; no line before it closes the block |
| RenewalBlocks.RenewOneSpec | apps/bills_master/src/reprocessing/modifier/processor/BillProcessor.cpp:31-50 | when a line of the block mentions the description nothing changes; otherwise exactly the renewal line is inserted at the block end, and all other lines keep their order |
| RenewalBlocks.RenewOneKeepsPrefix | apps/bills_master/src/reprocessing/modifier/processor/BillProcessor.cpp:45-50 | a renewal never touches the header or the lines before it and adds at most one line |
| RenewalBlocks.RenewOneIdempotent | apps/bills_master/src/reprocessing/modifier/processor/BillProcessor.cpp:37-50 | when the amount starts with a digit, renewing the same item a second time inserts nothing |
| RenewalBlocks.InsertRenewal | apps/bills_master/src/reprocessing/modifier/processor/BillProcessor.cpp:31-50 | the block scan, the mention search and the insertion compute the specified one-item renewal |
| BillProcessing.ApplyRuleSpec | apps/bills_master/src/reprocessing/modifier/processor/BillProcessor.cpp:23-51 | a rule whose header is not a line changes nothing; under the first header line, the block is kept when it mentions the description, and otherwise the renewal line is inserted at the block end |
| BillProcessing.ApplyRuleBounds | apps/bills_master/src/reprocessing/modifier/processor/BillProcessor.cpp:45-50 | a rule adds at most one line and never changes the lines up to its header |
| BillProcessing.ApplyRulesLength | apps/bills_master/src/reprocessing/modifier/processor/BillProcessor.cpp:23-51 | the rules together remove no line and add at most one line per rule |
| BillProcessing.AutoRenewalBounds | apps/bills_master/src/reprocessing/modifier/processor/BillProcessor.cpp:18-52 | disabled auto-renewal leaves the lines unchanged; enabled, it adds at most one line per rule |
| BillProcessing.ApplyRuleIdempotent | apps/bills_master/src/reprocessing/modifier/processor/BillProcessor.cpp:23-51 | applying a rule whose amount starts with a digit a second time changes nothing more |
| BillProcessing.ApplyAutoRenewal | apps/bills_master/src/reprocessing/modifier/processor/BillProcessor.cpp:18-52 | the rule loop, inserting into the lines, computes the rules applied in configuration order, or nothing when disabled |
| BillProcessing.Process | apps/bills_master/src/reprocessing/modifier/processor/BillProcessor.cpp:11-16 | every line is summed in place, then auto-renewal runs on the summed lines |
| BillTree.AddSub | apps/bills_master/src/reprocessing/modifier/processor/BillParser.cpp:33-43 | a new sub-item is always the last sub-item of the last parent, with no contents; a parent is created only when there was none |
| BillTree.AddContent | apps/bills_master/src/reprocessing/modifier/processor/BillParser.cpp:44-47 | adding a content line keeps the number of parents and leaves an open sub-item |
| BillTree.FlattenAddParent | apps/bills_master/src/reprocessing/modifier/processor/BillParser.cpp:28-32 | a parent title adds exactly its own line to the flattened tree |
| BillTree.FlattenAddSub | apps/bills_master/src/reprocessing/modifier/processor/BillParser.cpp:33-43 | a sub-title adds its own line, preceded by `Default Parent` when the tree was empty |
| BillTree.FlattenAddContent | apps/bills_master/src/reprocessing/modifier/processor/BillParser.cpp:44-47 | a content line adds exactly itself to the flattened tree |
| BillTree.TitlesAddSub | apps/bills_master/src/reprocessing/modifier/processor/BillParser.cpp:40-42 | a sub-title under an existing parent leaves the parent titles unchanged |
| BillTree.TitlesAddContent | apps/bills_master/src/reprocessing/modifier/processor/BillParser.cpp:44-47 | a content line leaves the parent titles unchanged |
| ModifierParsing.IsTitleSpec | apps/bills_master/src/reprocessing/modifier/processor/BillParser.cpp:69-79 | a line is a title exactly when its first non-space character exists and is a letter; an all-space line is never a title |
| ModifierParsing.OneLine | apps/bills_master/src/reprocessing/modifier/processor/BillParser.cpp:15-24 | one more line is set aside when it has a configured prefix, and otherwise is kept trimmed unless it is blank |
| ModifierParsing.BlankLineDropped | apps/bills_master/src/reprocessing/modifier/processor/BillParser.cpp:20-23 | a blank line contributes nothing to the structure wherever it stands |
| ModifierParsing.TempLinesTrimmed | apps/bills_master/src/reprocessing/modifier/processor/BillParser.cpp:20-23 | every line handed to the structure loop is trimmed and not empty |
| ModifierParsing.RunAgrees | apps/bills_master/src/reprocessing/modifier/processor/BillParser.cpp:26-51 | after any lines, the loop state agrees with the line-by-line account: the sub-item is open exactly after a sub-title, the tree is empty exactly before the first title, its flattening is the kept lines and its parents are the parent titles |
| ModifierParsing.ParseSpec | apps/bills_master/src/reprocessing/modifier/processor/BillParser.cpp:9-53 | in document order the tree holds every title and every content line that follows a sub-title with no parent title in between, a default parent before a leading sub-title; its parents are the titles without `_` behind that default |
| ModifierParsing.OrphanContentDropped | apps/bills_master/src/reprocessing/modifier/processor/BillParser.cpp:44-50 | a content line with no open sub-item leaves the tree unchanged and is dropped |
| ModifierParsing.DefaultParentFirst | apps/bills_master/src/reprocessing/modifier/processor/BillParser.cpp:34-39 | a sub-title before any title creates `Default Parent` as the single parent, holding that sub-item |
| ModifierParsing.ParentTitleResets | apps/bills_master/src/reprocessing/modifier/processor/BillParser.cpp:28-32 | a parent title appends a new empty parent and closes the current sub-item |
| ModifierParsing.ParseLines | apps/bills_master/src/reprocessing/modifier/processor/BillParser.cpp:9-53 | the metadata out-parameter gains exactly the prefixed lines in order and the tree is the specified parse |
| ModifierParsing.SortLine | apps/bills_master/src/reprocessing/modifier/processor/BillParser.cpp:15-22 | a prefixed line joins the metadata and nothing else; any other line joins the kept lines trimmed, unless it is blank |
| ModifierParsing.BuildStructure | apps/bills_master/src/reprocessing/modifier/processor/BillParser.cpp:26-51 | the loop, tracking the current parent and current sub-item, builds the specified tree |
| JsonFormatting.AmountSign | apps/bills_master/src/reprocessing/modifier/raw_format/BillJsonFormatter.cpp:107-125 | an amount written without a minus sign is never negative, and a negative amount was written with one |
| JsonFormatting.StripTrailingSpec | apps/bills_master/src/reprocessing/modifier/raw_format/BillJsonFormatter.cpp:141 | only trailing blanks are removed: the result is a prefix of the text, does not end in a blank, and everything removed is blank |
| JsonFormatting.StripLeadingSpec | apps/bills_master/src/reprocessing/modifier/raw_format/BillJsonFormatter.cpp:143 | only leading blanks are removed: the result is a suffix of the text, does not start with a blank, and everything removed is blank |
| JsonFormatting.SplitCommentSpec | apps/bills_master/src/reprocessing/modifier/raw_format/BillJsonFormatter.cpp:127-143 | the description holds no `//`, is a prefix of the text and has no trailing blank; the comment is a suffix with no leading blank; without `//` the comment is empty and the description is the whole text stripped |
| JsonFormatting.ParseContentLineSpec | apps/bills_master/src/reprocessing/modifier/raw_format/BillJsonFormatter.cpp:93-144 | a line the pattern rejects has amount 0 and its description and comment come from the whole line; a matching line has the pattern's amount and the text after the spaces; the description and comment laws hold either way |
| JsonFormatting.TotalsConcat | apps/bills_master/src/reprocessing/modifier/raw_format/BillJsonFormatter.cpp:52-60 | the sub-total, income and expense of two runs of transactions add up |
| JsonFormatting.IncomeExpenseSplit | apps/bills_master/src/reprocessing/modifier/raw_format/BillJsonFormatter.cpp:56-60 | total income is never negative, total expense never positive, and together they are the sum of all amounts |
| JsonFormatting.AllClassified | apps/bills_master/src/reprocessing/modifier/raw_format/BillJsonFormatter.cpp:47 | every transaction of the bill is an income exactly when its amount is not negative |
| JsonFormatting.KeysAssign | apps/bills_master/src/reprocessing/modifier/raw_format/BillJsonFormatter.cpp:73 | assigning to an ordered object keeps the key order when the key exists and appends the key otherwise |
| JsonFormatting.AssignLookup | apps/bills_master/src/reprocessing/modifier/raw_format/BillJsonFormatter.cpp:73 | after an assignment the key holds the new value and every other entry is unchanged |
| JsonFormatting.CategoriesKeys | apps/bills_master/src/reprocessing/modifier/raw_format/BillJsonFormatter.cpp:28-74 | the categories object has distinct keys, exactly the parent titles |
| JsonFormatting.CategoriesLastWins | apps/bills_master/src/reprocessing/modifier/raw_format/BillJsonFormatter.cpp:73 | the node stored under a title repeated by the last parent is that parent's node |
| JsonFormatting.FormatTotals | apps/bills_master/src/reprocessing/modifier/raw_format/BillJsonFormatter.cpp:77-86 | the balance is the sum of all amounts; total income is not negative, total expense not positive; transactions are classified by sign |
| JsonFormatting.MetaDateLast | apps/bills_master/src/reprocessing/modifier/raw_format/BillJsonFormatter.cpp:16-19 | the `date` field is the text after `date:` of the last metadata line that starts with it |
| JsonFormatting.AddSubTransactions | apps/bills_master/src/reprocessing/modifier/raw_format/BillJsonFormatter.cpp:33-61 | the inner loop appends one transaction per content line of the sub-item and adds their amounts to the sub-total and, by sign, to income or expense |
| JsonFormatting.BuildNode | apps/bills_master/src/reprocessing/modifier/raw_format/BillJsonFormatter.cpp:28-73 | the node built for a parent is its display name, the sum of its transactions and the transactions in order; the bill totals grow by its income and expense |
| JsonFormatting.FormatBill | apps/bills_master/src/reprocessing/modifier/raw_format/BillJsonFormatter.cpp:9-91 | the loops of `format` build the specified report, up to the final text dump |
| MonthTexFormatting.EscapeCharShape | Bills_Master/query/month/month_format/month_tex/MonthTexFormat.cpp:20-31 | each of the ten special characters becomes a sequence of at least two characters starting with a backslash; every other character is copied alone |
| MonthTexFormatting.EscapeConcat | Bills_Master/query/month/month_format/month_tex/MonthTexFormat.cpp:19-34 | escaping a concatenation is the concatenation of the escapes |
| MonthTexFormatting.EscapeLength | Bills_Master/query/month/month_format/month_tex/MonthTexFormat.cpp:19-34 | the escape is never shorter than the input; it equals the input exactly when no special character occurs, and is strictly longer otherwise |
| MonthTexFormatting.UnescapeEscape | Bills_Master/query/month/month_format/month_tex/MonthTexFormat.cpp:16-35 | escaping loses nothing: reading the escape sequences back recovers the original text |
| MonthTexFormatting.EscapeInjective | Bills_Master/query/month/month_format/month_tex/MonthTexFormat.cpp:16-35 | two different texts never escape to the same LaTeX text |
| MonthTexFormatting.NoDataReportShape | Bills_Master/query/month/month_format/month_tex/MonthTexFormat.cpp:41-56 | with no data the report is the configured preamble, then a document whose only body is the no-data sentence, ending with `\end{document}` and a newline |
| QueryExport.ExportByDateSpec | Bills_Master/src/query/core/QueryFacade.cpp:71-80 | a four-character date is exactly a yearly export, a six-character date exactly a monthly export, and any other length fails; a monthly export needs six characters |
| QueryExport.SelectMembers | Bills_Master/src/query/core/QueryFacade.cpp:94-98 | a month is selected exactly when it is listed and lies between the two bounds in string order |
| QueryExport.SelectConcat | Bills_Master/src/query/core/QueryFacade.cpp:94-98 | selection keeps the listing order |
| QueryExport.NoFailures | Bills_Master/src/query/core/QueryFacade.cpp:105-114 | no failure is counted exactly when every month exports, and there are never more failures than months |
| QueryExport.ExportRangeSpec | Bills_Master/src/query/core/QueryFacade.cpp:82-122 | a bound that is not six characters, or a start after the end, fails; otherwise the range succeeds exactly when the dates can be read and every listed month in the range exports, so an empty range succeeds |
| QueryExport.YearsMembers | Bills_Master/src/query/core/QueryFacade.cpp:162-165 | a year is exported exactly when some listed month of at least four characters starts with it |
| QueryExport.YearsShape | Bills_Master/src/query/core/QueryFacade.cpp:164 | every exported year has four characters |
| QueryExport.ExportAllSpec | Bills_Master/src/query/core/QueryFacade.cpp:124-197 | the full export succeeds exactly when the dates can be read, every listed month exports and every year prefix exports |
| QueryExport.ExportMonths | Bills_Master/src/query/core/QueryFacade.cpp:105-114 | the export loop counts each month once, as a success or as a failure, and the failures are the months that do not export |
| QueryExport.SelectMonths | Bills_Master/src/query/core/QueryFacade.cpp:93-98 | the filter loop keeps exactly the selection, in order |
| QueryExport.ExportByDateRange | Bills_Master/src/query/core/QueryFacade.cpp:82-122 | the method's verdict is the specified range verdict |
| QueryExport.ExportAllMonthlyReports | Bills_Master/src/query/core/QueryFacade.cpp:124-150 | the method succeeds exactly as specified: no months is a success, a read error a failure, otherwise every month must export |
| QueryExport.CollectYears | Bills_Master/src/query/core/QueryFacade.cpp:162-165 | the loop collects exactly the specified year set |
| QueryExport.ExportAllYearlyReports | Bills_Master/src/query/core/QueryFacade.cpp:152-183 | the method succeeds exactly when the dates can be read and every collected year exports |
| CommandLine.PlainArgsKept | Bills_Master/src/command_handler/CommandFacade.cpp:28-30 | arguments that are not flags are appended to the command parts in order and change nothing else |
| CommandLine.ParseConcat | Bills_Master/src/command_handler/CommandFacade.cpp:14-31 | parsing that finishes without an error composes: later arguments continue from the state the earlier ones left |
| CommandLine.LastFlagWins | Bills_Master/src/command_handler/CommandFacade.cpp:16-27 | the last value given for a flag is the one kept, and flags never add command parts |
| CommandLine.MissingValueThrows | Bills_Master/src/command_handler/CommandFacade.cpp:19-21 | a flag with nothing after it throws and keeps the parts gathered so far |
| CommandLine.PartsGrow | Bills_Master/src/command_handler/CommandFacade.cpp:13-32 | parsing only appends to the parts, never a flag |
| CommandLine.FormatsFor | Bills_Master/src/command_handler/CommandFacade.cpp:44-50 | `all` or `a` expands to md, tex, rst and typ in that order; any other format runs alone |
| CommandLine.ExportEachSpec | Bills_Master/src/command_handler/CommandFacade.cpp:52-71 | an export of all succeeds exactly when every one of its formats exports; a failure does not stop the loop |
| CommandLine.ExportTargetSpec | Bills_Master/src/command_handler/CommandFacade.cpp:54-61 | an unknown non-empty type throws, and no type exports everything |
| CommandLine.UnknownCommandFails | Bills_Master/src/command_handler/CommandFacade.cpp:137-140 | a command word that is none of the known ones returns false without calling the controller |
| CommandLine.Run | Bills_Master/src/command_handler/CommandFacade.cpp:143-160 | the exit status is always 0 or 1 |
| CommandLine.CommandFacade.constructor | Bills_Master/src/command_handler/CommandFacade.cpp:13 | a new facade starts with the default format, no type filter and no command parts |
| CommandLine.CommandFacade.ParseArguments | Bills_Master/src/command_handler/CommandFacade.cpp:13-32 | the fields after the loop, and the exception when a flag has no value, are those of the specified parse |
| CommandLine.CommandFacade.ExportFormats | Bills_Master/src/command_handler/CommandFacade.cpp:52-71 | the format loop returns the conjunction of every format's export |
| CommandLine.CommandFacade.HandleExportCommand | Bills_Master/src/command_handler/CommandFacade.cpp:34-83 | the export dispatch returns or throws as specified |
| CommandLine.CommandFacade.ExecuteCommand | Bills_Master/src/command_handler/CommandFacade.cpp:86-141 | the command dispatch returns or throws as specified |
| CommandLine.CommandFacade.RunCommand | Bills_Master/src/command_handler/CommandFacade.cpp:143-160 | the exit status is the specified one: 1 for no arguments, a parse error, an exception or a failure, 0 for success |
| LogArguments.FirstOption | test/log_generator/_internal/arg_parser.cpp:13-58 | the option found is the first recognised one at or after the start, and none is found exactly when no later argument is recognised |
| LogArguments.NoArgumentsShowHelp | test/log_generator/_internal/arg_parser.cpp:8-11 | without arguments the generator shows its help and reports no error |
| LogArguments.SingleYear | test/log_generator/_internal/arg_parser.cpp:23-37 | `-s` or `--single` followed by a valid year, with no recognised option before it, generates exactly that year |
| LogArguments.GenerateOrdered | test/log_generator/_internal/arg_parser.cpp:39-56 | whenever the result is to generate, the start year is not after the end year and there is no error message |
| LogArguments.MissingValueReported | test/log_generator/_internal/arg_parser.cpp:24-27 | a year option without enough arguments after it sets an error message and leaves the action at error |
| LogArguments.FirstOptionDecides | test/log_generator/_internal/arg_parser.cpp:13-58 | the first recognised option decides the result: the arguments before it are skipped and whatever follows its values is ignored |
| LogArguments.ParseArguments | test/log_generator/_internal/arg_parser.cpp:5-62 | the loop that returns on the first recognised option computes the specified result |
| PathBuilding.FileName | apps/bills_master/src/app_controller/workflow/PathBuilder.cpp:20 | the file name has no separator, ends the path, and is preceded by a separator when it is not the whole path |
| PathBuilding.Stem | apps/bills_master/src/app_controller/workflow/PathBuilder.cpp:13 | a file name is its stem followed by its extension |
| PathBuilding.FileNameAppend | apps/bills_master/src/app_controller/workflow/PathBuilder.cpp:20 | appending text without a separator extends the file name by that text |
| PathBuilding.JoinFileName | apps/bills_master/src/app_controller/workflow/PathBuilder.cpp:18-20 | joining a directory and a plain name gives a path that starts with the directory and whose file name is that name |
| PathBuilding.OutputNameSpec | apps/bills_master/src/app_controller/workflow/PathBuilder.cpp:11-13 | the output file name is the input's stem followed by `.json` |
| PathBuilding.OutputStemSpec | apps/bills_master/src/app_controller/workflow/PathBuilder.cpp:13 | the stem the year is read from is the input's own stem; an input with an empty stem gives the name `.json`, whose stem is `.json` |
| PathBuilding.TargetDirSpec | apps/bills_master/src/app_controller/workflow/PathBuilder.cpp:16-24 | a stem of at least four characters puts the output in the root joined with its first four characters; a shorter one puts it in the root itself |
| PathBuilding.OutputPathSpec | apps/bills_master/src/app_controller/workflow/PathBuilder.cpp:10-27 | the returned path's file name is the stem followed by `.json`, and it lies inside the created directory, inside the output root |
| PathBuilding.FileHandler.CreateDirectories | apps/bills_master/src/app_controller/workflow/PathBuilder.cpp:19 | each request to create a directory is recorded, in order |
| PathBuilding.PathBuilder.constructor | apps/bills_master/src/app_controller/workflow/PathBuilder.cpp:7-8 | the builder keeps the output root and the file handler it was given |
| PathBuilding.PathBuilder.BuildOutputPath | apps/bills_master/src/app_controller/workflow/PathBuilder.cpp:10-27 | the result is the specified output path, and exactly one directory is created, the one the output goes into |
| ConfigValidation.FirstErrorSpec | Bills_Master/src/config_validator/ConfigValidator.cpp:10-29 | an element loop finds no error exactly when every element passes its checks, and a reported error is that of an element all of whose predecessors pass |
| ConfigValidation.CategorySpec | Bills_Master/src/config_validator/ConfigValidator.cpp:11-28 | one category passes exactly when it is an object with a string `parent_item` and a `sub_items` array of strings |
| ConfigValidation.ValidatorConfigSpec | Bills_Master/src/config_validator/ConfigValidator.cpp:4-31 | the validator configuration is accepted exactly when `categories` is a non-empty array whose every element is a well-formed category |
| ConfigValidation.CategoriesRequired | Bills_Master/src/config_validator/ConfigValidator.cpp:5-8 | without a non-empty `categories` array the configuration is rejected with that message, whatever else it holds |
| ConfigValidation.RenewalSpec | Bills_Master/src/config_validator/ConfigValidator.cpp:34-68 | the renewal value passes exactly when it is an object whose `enabled`, if present, is a boolean and whose `rules`, if present, is an array of objects with a string `header_location`, a number `amount` and a string `description` |
| ConfigValidation.ModifierConfigSpec | Bills_Master/src/config_validator/ConfigValidator.cpp:33-80 | the modifier configuration is accepted exactly when each optional key that is present has the expected shape |
| ConfigValidation.NoOptionalKeysAccepted | Bills_Master/src/config_validator/ConfigValidator.cpp:33-80 | a modifier configuration with none of the optional keys is accepted |
| ConfigValidation.NonObjectModifierAccepted | Bills_Master/src/config_validator/ConfigValidator.cpp:33-80 | a configuration that is not an object passes the modifier check, since `contains` is false on it, and fails the validator check with the missing-categories message |
| ConfigValidation.PrefixElementsUnchecked | Bills_Master/src/config_validator/ConfigValidator.cpp:70-73 | only the array shape of `metadata_prefixes` is checked, so an array holding a number passes |
| ConfigValidation.CheckCategory | Bills_Master/src/config_validator/ConfigValidator.cpp:11-28 | the checks on one category and its sub-item loop report the specified error, or none |
| ConfigValidation.ValidateValidatorConfig | Bills_Master/src/config_validator/ConfigValidator.cpp:4-31 | the result is true exactly when the configuration is accepted; the message is left alone on success and is the first failing check's message otherwise |
| ConfigValidation.CheckRules | Bills_Master/src/config_validator/ConfigValidator.cpp:49-66 | the rule loop reports the first failing rule's error |
| ConfigValidation.ValidateModifierConfig | Bills_Master/src/config_validator/ConfigValidator.cpp:33-80 | the result is true exactly when the configuration is accepted; the message is left alone on success and is the first failing check's message otherwise |
| CompileDriver.PyJoin | test/compile_auto/compiler.py:25 | a path join always ends with its second operand |
| CompileDriver.Basename | test/compile_auto/compiler.py:24 | the folder name has no separator and ends the path |
| CompileDriver.ExtensionDot | test/compile_auto/compiler.py:40 | the extension starts at the last dot of the name, and only when a character other than a dot comes before it |
| CompileDriver.TexIgnoresOutputPath | test/compile_auto/compiler.py:106-107 | the TeX command ignores the PDF path, passes the target directory as its output directory and ends with the input path |
| CompileDriver.PandocCommandsDifferInFrom | test/compile_auto/compiler.py:118-131 | the Markdown and reStructuredText commands agree everywhere except the `--from` argument, `gfm` against `rst` |
| CompileDriver.OtherBuildersIgnoreTarget | test/compile_auto/compiler.py:118-142 | every builder but TeX's ignores the target directory and names the PDF path |
| CompileDriver.MatchingSpec | test/compile_auto/compiler.py:32-33 | a file is compiled exactly when it is listed and its name ends with the extension |
| CompileDriver.EntryJobsSpec | test/compile_auto/compiler.py:32-41 | one job per matching file of a walk entry, in listing order, each placed as the mirrored path prescribes |
| CompileDriver.JobInputExtension | test/compile_auto/compiler.py:31-35 | every job's input path ends with the tool's extension |
| CompileDriver.MirroredPath | test/compile_auto/compiler.py:24-41 | the PDF of a file lies at the output root, then the source folder's name, then the file's relative directory, then the file's root name with `.pdf` |
| CompileDriver.AbortedStays | test/compile_auto/compiler.py:69-71 | once a tool is missing, no later job runs |
| CompileDriver.AbortSpec | test/compile_auto/compiler.py:43-71 | the run ends early exactly when some job's directory is made and its tool is missing |
| CompileDriver.ProcessCount | test/compile_auto/compiler.py:31-81 | the count is 0 when a tool is missing and otherwise the number of matching files, counted even when their directory could not be made; no more commands are started than there are jobs |
| CompileDriver.IssuedBound | test/compile_auto/compiler.py:43-49 | at most one command per job is started |
| CompileDriver.RunJob | test/compile_auto/compiler.py:43-71 | one job counts one file and starts its command exactly as specified, ending the run when the tool is missing |
| CompileDriver.ProcessDirectory | test/compile_auto/compiler.py:13-81 | the walk loop returns the specified count and starts the specified commands |
| CompileDriver.Rank | test/compile_auto/compiler.py:160-165 | every handler has a position in the keyword map |
| CompileDriver.MatchSpec | test/compile_auto/compiler.py:168-191 | the handler chosen for a name has a keyword in the lower-cased name and no handler earlier in the map has one; no handler is chosen exactly when none has |
| CompileDriver.TexFirst | test/compile_auto/compiler.py:160-165 | a name whose lower-cased form contains `tex` always goes to TeX, whatever other keywords it holds |
| CompileDriver.DispatchedSpec | test/compile_auto/compiler.py:168-191 | every listed directory with a recognised name is run once, by the handler its name selects, and nothing else is run |
| CompileDriver.SummaryKeys | test/compile_auto/compiler.py:186 | the summary lists each log name once, in order of first use, and holds exactly the names stored |
| CompileDriver.SummaryLastWins | test/compile_auto/compiler.py:186 | for each name the summary keeps the timing stored last under it |
| CompileDriver.AverageSpec | test/compile_auto/compiler.py:202 | a count of zero is never divided by; otherwise the average times the count is the duration |
| CompileDriver.NothingRecognisedSpec | test/compile_auto/compiler.py:193-195 | the hint is printed exactly when no listed directory has a recognised name |
| CompileDriver.FindHandler | test/compile_auto/compiler.py:172-191 | the keyword loops pick the first handler in map order with a keyword in the name |
| CompileDriver.HandleAuto | test/compile_auto/compiler.py:153-204 | the handlers are run as dispatched and the final report is the specified one |
| PluginLoading.FormatNameSpec | Bills_Master/query/plugins/common/PluginLoader.h:141-148 | when the stem holds the suffix, the format name followed by the suffix begins the stem and the suffix occurs nowhere after the format name (the last occurrence is cut); a stem without the suffix is its own format name |
| PluginLoading.FormatNameOfPlugin | Bills_Master/query/plugins/common/PluginLoader.h:141-148 | a stem made of a name and the suffix yields exactly that name, even if the name itself contains the suffix |
| PluginLoading.PluginFileName | Bills_Master/query/plugins/common/PluginLoader.h:60-89 | a file `<dir>/<name><suffix>.so` has stem `<name><suffix>`, extension `.so`, and names format `name` |
| PluginLoading.SuffixFilter | Bills_Master/query/plugins/common/PluginLoader.h:63-65 | a load is turned away as "not a plugin file" exactly when the path is not a regular file or its stem lacks the suffix |
| PluginLoading.LoadSpec | Bills_Master/query/plugins/common/PluginLoader.h:60-111 | a load succeeds exactly when the file is regular, its stem holds the suffix, its extension is `.so`, the library opens and it exports `create_<format><suffix>`; the registered factory is that symbol in that file |
| PluginLoading.ReloadReplaces | Bills_Master/query/plugins/common/PluginLoader.h:108 | loading a second plugin for the same format replaces the first: the map is as if only the second had been loaded |
| PluginLoading.RegisterAllAvailable | Bills_Master/query/plugins/common/PluginLoader.h:53-57 | after a series of loads a format is available exactly when it was before or some load in the series registered it |
| PluginLoading.LastLoadWins | Bills_Master/query/plugins/common/PluginLoader.h:53-57 | the factory kept for a format is the one from the last successful load of that format |
| PluginLoading.RegularFilterRedundant | Bills_Master/query/plugins/common/PluginLoader.h:45-48 | skipping directory entries that are not regular files gives the same map as loading every entry, because a load turns them away itself |
| PluginLoading.LoadDirectorySpec | Bills_Master/query/plugins/common/PluginLoader.h:39-50 | a missing directory leaves the factories unchanged; otherwise scanning it is loading each of its entries in order |
| PluginLoading.PluginLoader.constructor | Bills_Master/query/plugins/common/PluginLoader.h:23-24 | a new loader keeps its suffix and has no factories |
| PluginLoading.PluginLoader.LoadPlugin | Bills_Master/query/plugins/common/PluginLoader.h:60-111 | returns true exactly when the load succeeds, and the factories become the old ones with that outcome registered |
| PluginLoading.PluginLoader.LoadPluginsFromFiles | Bills_Master/query/plugins/common/PluginLoader.h:53-57 | the factories become the old ones with every path's outcome registered in order |
| PluginLoading.PluginLoader.LoadNext | Bills_Master/query/plugins/common/PluginLoader.h:54-56 | loading the next path extends the factories of the paths before it by that path's outcome |
| PluginLoading.PluginLoader.LoadPluginsFromDirectory | Bills_Master/query/plugins/common/PluginLoader.h:39-50 | the factories become what scanning the directory from the old ones gives |
| PluginLoading.PluginLoader.CreateFormatter | Bills_Master/query/plugins/common/PluginLoader.h:114-125 | a factory is returned exactly when the format is available, and it is the registered one |

## Left out

- Floating point:
  - `_sum_up_line` and the sorts by amount (`std::stod`) are the parameters `sumLine` and `sortContents`.
  - The JSON amounts, the parent sub-totals and the income, expense and balance totals are exact decimals (`real`). So they carry no binary rounding and no `setprecision` formatting.
  - The compile driver's durations and averages are exact `real`s, and `:.2f` formatting is not modelled.
- JsonFormatting.ParseContentLine: an amount beyond the range of a `double` is not modelled. The pattern accepts any number of digits, and there `std::stod` throws `out_of_range`. The source catches that, sets the amount to 0 and takes the whole line as the description. The model keeps the exact value and the text after the amount.
- SectionParsing.Content: an item's amount stays the text of its first match, so the `std::stod` conversion is not modelled. That covers both reading only a leading number (`12abc` gives 12) and the uncaught `out_of_range` for an amount beyond `double` range. In the source that exception leaves `parseFile`, with no later record, no later error and no end-of-file check.
- SectionParsing.SectionParser.HandleContent: the item branch always appends its record. The uncaught `std::stod` `out_of_range` of that branch is not modelled (see `SectionParsing.Content`).
- SectionParsing.SectionParser.ParseClassified: on an item line it does what `HandleContent` does, so the `std::stod` throw is not modelled.
- SectionParsing.SectionParser.ParseLine: on an item line it does what `HandleContent` does, so the `std::stod` throw is not modelled.
- SectionParsing.SectionParser.ParseFile: it promises the model's errors and records for every readable file. It does not model the source leaving `parseFile` by exception at an amount beyond `double` range, before the later lines and the end-of-file check.
- OrderParsing.OrderParser.ApplyShape: an item's amount stays text (`ItemLine.amount`), so the `std::stod` conversion is not modelled. Nor is its uncaught `out_of_range` for an amount beyond `double` range, which ends `parseFile` after the item counter has already been advanced.
- RenewalBlocks.RenewalLine: `amountText` is taken as given. In the source it is a `double` read with `value("amount", 0.0)` and printed with `std::fixed` and two decimals. That conversion and its rounding are not modelled.
- JSON parsing and dumping:
  - Configuration files arrive already parsed (category rules, renewal rules, metadata prefixes, formatting counts).
  - `ConfigValidation` works on a JSON value datatype.
  - The text of the JSON the formatter dumps is not modelled. Its node structure is.
- File, database and process I/O:
  - Reading and writing files becomes sequences of lines.
  - The database, the report generators and the exporter behind the query facade are the `Backend` oracle.
  - The application controller behind the command facade is the `Controller` oracle.
  - `dlopen`/`dlsym` are the `Host` oracle, and directory creation is a recorded request.
  - `os.walk`, `os.listdir`, `os.path.abspath`, `os.makedirs`, `subprocess.run` and `time.perf_counter` are fields of the compile driver's `Environment`.
- Console output is not modelled: `print`, `std::cout`/`std::cerr` messages, the help and version texts (`print_help`, `display_version`) and the compile driver's log lines.
- The TeX cleanup hook of the compile driver (deleting `.aux`, `.log`, `.out` files) is not modelled: it is pure file-system work.
- The command-line entry points are not modelled: `argparse` and `main` in `compiler.py`, and the `main.cpp` menus.
- Concurrency: none to model. The compile driver in `compiler.py` runs its jobs one after another, and so does the model.
- Wide characters and case folding:
  - Characters are those of the C locale.
  - Python's `str.lower()` is modelled on ASCII letters only.
  - Paths are POSIX strings.
- The Windows build of the plugin loader is not modelled: `LoadLibrary` and the `.dll` extension.
- Handle lifetime in the plugin loader is not modelled: `dlclose` in the destructor, and the handle of a replaced plugin that is never closed. The factory map records a library by its path.
- `std::map` and `std::unordered_map` iteration:
  - The verifier's `bill_structure` is an `unordered_map`; the model walks its parents in order of first registration. The end-of-file properties are stated per parent, so they hold for any order.
  - The compile driver's `timing_summary` keeps Python's insertion order.
- In `cell/reprocessor/BillModifier.cpp` the auto-renewal loop calls `lines.insert`, which invalidates the iterator it keeps for the block start. The model follows the evident intent: the same index, with the block end recomputed after each insertion.
- Headers missing from the source files:
  - `test/log_generator/_internal/arg_parser.h` is not part of this model, so the `ProgramOptions` defaults are taken as the `Error` action, years 0 and an empty message.
  - The `CommandFacade` header is not part of this model, so the initial export format is a constructor parameter.
- `MonthTexFormatting` models only the no-data branch of `format_report`. The report body for a month with data goes through the report sorter and floating-point percentages.
- RenewalBlocks.RenewOneIdempotent and BillProcessing.ApplyRuleIdempotent hold only when the renewal amount starts with a digit. Otherwise the inserted line can itself be read as a title and end the block, and a second run may insert again.
- BillModification.RenderRoundTrip holds only for tidy trees whose lines have no line breaks and are not empty, rendered with `DefaultFormatting`. `Modify` cleans the tree only when cleanup is enabled, and renders with the configured counts. So with cleanup off (a bill made only of titles, say) or with other counts, no round trip is promised.
- Two behaviours of the source are kept as they are:
  - `ConfigValidation`: a modifier configuration that is not a JSON object is accepted, because `contains` is false on every non-object.
  - `PathBuilding`: an input whose file name is empty (an empty path or one ending in `/`) is given the name `.json`. Its stem is `.json` itself, since a leading dot does not start an extension. So the file goes into the sub-directory `.jso`.
