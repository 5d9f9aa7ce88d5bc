# A Dafny model of the tester harness core

`tester` is an integration-test harness. Test scripts (Lua, or an older
keyword-based text format) call protocol adapters and check each response
against an expected value. A placeholder such as `Save("id")`,
`Ignore()` or `NotNull` in the expected value marks a field that is
compared loosely and may be saved into the shared state. This project
models the deterministic core of that harness and proves what it promises.

| module | file | models |
|---|---|---|
| `Wrappers` | `wrappers.dfy` | Option and Result, for every Go function that returns an error |
| `Strs` | `strs.dfy` | the parts of Go's `strings`/`strconv` and of JavaScript's string methods the harness uses |
| `Values` | `values.dfy` | the Lua interpreter's values and the host's Go `any` values; a float64 is kept opaque |
| `Matcher` | `matcher.dfy` | the verdict of a go-cmp comparison under path-filtered options |
| `Check` | `check.dfy` | the response matcher of the Lua runners (`lua/runner/check.go`) |
| `Store` | `store.dfy` | the dotted-path walk of `appendStore` (`lua/runner/check.go`, `testmanager/parser/file.go`) |
| `Placeholders` | `placeholders.dfy` | the placeholder builtins of `lua/spec/funcs.go` |
| `Dedent` | `dedent.dfy` | `Dedent` of `lua/runner/strings.go` |
| `PubSub` | `pubsub.dfy` | the Pub/Sub runner of `lua/runner/pubsub.go` |
| `Suite` | `suite.dfy` | the per-file suite of `lua/suite.go` |
| `JsonReporter` | `json_reporter.dfy` | the line-per-event reporter of `lua/json_reporter.go` |
| `WatchBatcher` | `watch_batcher.dfy` | the file-event batcher of `lua/watch_batcher.go` |
| `SpecTypes` | `spec_types.dfy` | the runner specifications and their annotations (`lua/spec/interfaces.go`) |
| `Generate` | `generate.dfy` | the annotation stub generator of `lua/generate.go` |
| `Config` | `config.dfy` | the typed configuration reads of `testmanager/config.go` |
| `ParserFile` | `parser_file.dfy` | a parsed SQL test file and its execution (`testmanager/parser/file.go`) |
| `Parser` | `parser.dfy` | the keyword splitter of the older test-file format (`testmanager/parser/parser.go`) |
| `TestCase` | `testcase.dfy` | one test case directory of the older harness (`testmanager/testcase.go`) |
| `WebReporter` | `web_reporter.dfy` | the reporter behind the web UI (`internal/webui/reporter.go`) |
| `Watcher` | `watcher.dfy` | the web UI's picture of a run (`internal/webui/ui/src/lib/watcher.svelte.ts`) |
| `Fuzzy` | `fuzzy.dfy` | the web UI's fuzzy search (`internal/webui/ui/src/lib/fuzzy.ts`) |

Code that changes state in place is modelled as classes whose methods are
proved against specification functions. These are the Pub/Sub runner,
the watch batcher, the two reporters and the web reporter's tree, the
suite, the test case, the UI watcher, the SQL file's variables, and the
string builder of the annotation writers. The stub generator's sort by
name stays an in-place sort on an array. The
pure parts are functions with lemmas. Loops in the source are `while`
or `for` loops with invariants.

The Lua interpreter is not modelled. A Lua call receives its stack as a
parameter. What a test block or a delegated Go function does is an input.
The reporter calls a component makes are recorded, in order, as events.
A channel send appends a delivery to an outbox.

A table whose `Len()` is 0 always converts to a map, and a map never
equals a list, so an expected `{}` does not match a response's `[]`
(`Check.EmptyTableIsNotEmptyList`, `Generate.EmptyTableIsEmptyMap`).

## Model

| member | source | states |
|---|---|---|
| WatchBatcher.Pending | lua/watch_batcher.go:40-47 | A Write or Create event becomes the pending event for its path (Write/Create checked first, so it wins over Remove/Rename); otherwise a Remove or Rename deletes the path's entry; every other path keeps its entry |
| WatchBatcher.PendingKeyedByName | lua/watch_batcher.go:40-47 | Handling an event keeps every pending event filed under its own path |
| WatchBatcher.LaterWriteWins | lua/watch_batcher.go:41-42 | Two writes to one path before a tick leave only the later one pending |
| WatchBatcher.RemovalCancelsWrite | lua/watch_batcher.go:41-46 | A write followed by a removal of the same path leaves nothing pending for it and the rest unchanged |
| WatchBatcher.IgnoredEvent | lua/watch_batcher.go:40-47 | An event with none of the four flags leaves the pending map unchanged |
| WatchBatcher.Batch | lua/watch_batcher.go:49-51 | A tick sends one event per key in iteration order, the event pending under that key |
| WatchBatcher.BatchHoldsEachOnce | lua/watch_batcher.go:48-52 | A tick sends every pending event, and no event twice |
| WatchBatcher.Batcher.constructor | lua/watch_batcher.go:21-25 | A new batcher has an empty pending map and has sent nothing |
| WatchBatcher.Batcher.HandleEvent | lua/watch_batcher.go:39-47 | The pending map becomes Pending of the old map and the event; nothing is sent |
| WatchBatcher.Batcher.Tick | lua/watch_batcher.go:48-52 | Sends the batch of the old map in an order that lists each pending path exactly once, and empties the map |
| Check.UnconvertibleFromStep | lua/runner/check.go:121-139 | A table's remaining slots hold an unconvertible value exactly when the current slot does or a later one does |
| Check.ExpectedItemsAt | lua/runner/check.go:130-141 | The list built from slot j on has one element per non-nil slot, the n-th being the expected value of the n-th non-nil slot in ForEach order |
| Check.ExpectedFieldsKeys | lua/runner/check.go:118-128 | A key is in the map built from slot j on exactly when it was already there or LVAsString of some visited key renders to it |
| Check.ExpectedFieldsLast | lua/runner/check.go:118-128 | A key holds the expected value of the last visited slot whose key renders to it: a later key overwrites an earlier one |
| Check.ExpectedFieldsKept | lua/runner/check.go:118-128 | A key no visited slot renders to keeps the value it had |
| Check.Convert | lua/runner/check.go:106-166 | convertToCheck panics exactly when a function or a non-placeholder userdata (the Null marker included) is reachable; otherwise it returns the expected value (scalars unchanged, a table with Len() 0 as a map, any other table as a list, each placeholder as its marker string) and the accumulator with every placeholder below the path recorded in ForEach order |
| Check.ConvertMap | lua/runner/check.go:118-128 | The map branch fails exactly when a later slot is unconvertible; otherwise it yields the map of the visited slots, keyed by LVAsString of their keys, over the entries already collected, and records the placeholders below each slot at path + "." + key |
| Check.ConvertList | lua/runner/check.go:130-141 | The list branch fails exactly when a later slot is unconvertible; otherwise it yields the values already collected followed by the expected value of each visited slot, and records the placeholders below each slot at path + "." + (Lua index - 1) |
| Check.RecordAppend | lua/runner/check.go:121-139 | Recording two runs of placeholders one after the other is recording their concatenation |
| Check.PrefixOfLonger | lua/runner/check.go:124-137 | A path that starts with path + ext starts with path |
| Check.ExtendsTrans | lua/runner/check.go:121-139 | Writes below a path compose |
| Check.MarksBelow | lua/runner/check.go:106-166 | Every placeholder of a value is recorded at the value's path or below it |
| Check.MarksFromBelow | lua/runner/check.go:118-141 | Every placeholder below a table's slots is recorded below the table's path |
| Check.RecordExtends | lua/runner/check.go:143-161 | Recording placeholders that lie below a path keeps the earlier rules first, appends only exact rules starting with that path, and sets no save entry outside it |
| Check.ConvertStaysBelow | lua/runner/check.go:106-166 | Converting the value at a path keeps the earlier rules first, adds only exact rules whose targets start with that path, and changes no save entry outside it |
| Check.ExactCons | lua/runner/check.go:124-137 | A step sequence's path is "." + its first step's text followed by the path of the rest |
| Check.ChildPath | lua/runner/check.go:124-137 | The path built for a slot's child, extended by further steps, is the path of the step into that slot followed by those steps |
| Check.MarksFromHas | lua/runner/check.go:121-139 | A placeholder below a visited slot is among the table's placeholders |
| Check.PlaceholderMarked | lua/runner/check.go:106-166 | Every Save or Ignore placeholder reached by steps p is recorded at path + Exact(p) with its own payload |
| Check.MarksFromWhich | lua/runner/check.go:121-139 | Every placeholder of a table lies below one of its visited slots |
| Check.MarkPlaced | lua/runner/check.go:106-166 | Every recorded placeholder is a Save or Ignore placeholder reached by some steps p and recorded at path + Exact(p) |
| Check.RecordRules | lua/runner/check.go:143-160 | The options after recording are the earlier ones followed by each placeholder's option (allowNull when its flag is set, notNull otherwise, at exactly its path), in order |
| Check.RecordSavesKeys | lua/runner/check.go:145 | A path has a save entry after recording exactly when it had one or a Save is recorded at it |
| Check.RecordSavesLast | lua/runner/check.go:145 | A path's save entry names the last Save recorded at it |
| Check.RecordSavesKept | lua/runner/check.go:145 | A save entry at a path no Save is recorded at is unchanged |
| Check.RecordSavesFrom | lua/runner/check.go:145 | Starting from no save entries, every entry names the last Save recorded at its path |
| Check.Prepare | lua/runner/check.go:33-34 | Converting the expected table from the empty path fails exactly when it holds an unconvertible value, and otherwise yields its expected value |
| Check.PlaceholdersRecorded | lua/runner/check.go:106-166 | Both directions: every Save or Ignore placeholder at steps p yields an option at exactly Exact(p) (allowNull when its flag is set, notNull otherwise) and every Save a save entry at Exact(p); every option comes from such a placeholder, and every save entry names a Save placeholder at its path |
| Check.ListSlotStep | lua/runner/check.go:133-136 | In a list, array slot j (Lua index j + 1) is entered by the 0-based step j |
| Check.IgnorePath | lua/runner/check.go:185-198 | A path matches exactly when its rendering (".key" per map step, ".index" per slice step) equals the recorded path; there is no wildcard form |
| Check.AppendStore | lua/runner/check.go:49-83 | Does nothing unless the body is a map; otherwise calls fn exactly once with the key and the value the walk reaches (nil when absent), or panics where the walk does |
| Check.StdCheck | lua/runner/check.go:32-47 | A conversion panic happens exactly when the expected table holds an unconvertible value; otherwise it raises the diff exactly when the comparison under the recorded rules fails, saving nothing; after an equal comparison it saves each recorded path at most once, in some order, each with the value found and its name, all of them unless a walk panics |
| Check.SavedSnoc | lua/runner/check.go:44-46 | One more found value saved under its name keeps the calls one per distinct path |
| Check.SaveAll | lua/runner/check.go:44-46 | The save loop calls fn for distinct recorded paths with the found values; for a map body it visits every path unless a walk panics, and a non-map body makes no call |
| Check.EmptyTableIsNotEmptyList | lua/runner/check.go:118-128 | The empty table `{}` converts to an empty map, which does not match an empty list |
| Check.StatusMismatch | lua/runner/check.go:36-38 | `{ status = 200 }` converts to a plain map with no rules, which does not match a response with status 404 |
| Check.NestedSaveConverts | lua/runner/check.go:124-153 | `{ a = { b = Save("x") } }` converts to a nested map holding the save marker, one save entry at ".a.b" and one not-null rule there |
| Check.NestedSaveMatches | lua/runner/check.go:178-183 | Against `{"a": {"b": v}}` that table matches exactly when v is not nil |
| Check.InnerLevel | lua/runner/check.go:178-183 | At ".a" the not-null rule on ".a.b" decides the comparison of the inner maps |
| Check.ListSaveIsZeroBased | lua/runner/check.go:130-141 | `{ Save("x") }` is a list whose element is recorded at the 0-based path ".0" |
| Check.NestedSaveWalks | lua/runner/check.go:59-82 | The walk of ".a.b" in `{"a": {"b": v}}` reaches v |
| Config.Bool | testmanager/config.go:5-15 | A missing key and a value that is not a bool both read as (false, false); a stored bool v reads as (v, true) |
| Config.Int | testmanager/config.go:17-27 | ok exactly when the key holds a float64, and the value is then its truncation to int; otherwise (0, false) |
| Config.BoolReadsBack | testmanager/config.go:5-15 | A bool stored under a key reads back as (b, true), and every other key reads as before |
| Config.IntReadsBack | testmanager/config.go:17-27 | A float64 holding the whole number i reads back as (i, true) |
| Config.GoIntIsNotRead | testmanager/config.go:22-25 | A Go int under the key reads as (0, false): only float64 is accepted |
| Config.BoolAndIntExclusive | testmanager/config.go:5-27 | No key reads successfully both as a bool and as an int |
| Values.Len | lua/runner/check.go:118 | The length of a Lua table's array part is one past its last non-nil slot: every slot from there on is nil |
| Values.AsIndex | lua/runner/check.go:134-135 | A table key that is neither a number nor a decimal string reads as index 0 |
| Dedent.MinIndentIsLeast | lua/runner/strings.go:14-26 | The common indent is None exactly when every line is blank; otherwise it is at most the indent of each non-blank line and equals the indent of one of them |
| Dedent.StripAll | lua/runner/strings.go:35-44 | The result has one line per input line, each stripped of the common indent, or left-trimmed when shorter than it |
| Dedent.FindMinIndent | lua/runner/strings.go:14-26 | The first loop computes the least indent over the non-blank lines, or none when all are blank |
| Dedent.StripLines | lua/runner/strings.go:34-44 | The second loop fills a fresh slice with exactly the stripped lines |
| Dedent.Dedent | lua/runner/strings.go:11-48 | Returns Dedented(s): TrimSpace(s) when there is no indented non-blank line, else the trimmed join of the stripped lines |
| Dedent.DedentedTrimmed | lua/runner/strings.go:31-47 | The output has no white space at either end |
| Dedent.NoCommonIndentOnlyTrims | lua/runner/strings.go:28-32 | With no non-blank line, or with a non-blank line at indent 0, the result is TrimSpace(s) |
| Dedent.NonBlankLineLosesCommonIndent | lua/runner/strings.go:36-39 | Each non-blank line loses exactly the common indent, which is all spaces and tabs, and keeps any indentation beyond it |
| Dedent.LineLosesIndent | lua/runner/strings.go:37-38 | A non-blank line indented by at least m loses m blanks and keeps the rest of its indentation |
| Dedent.ShortBlankLineBecomesEmpty | lua/runner/strings.go:40-42 | A blank line shorter than the common indent comes out empty, so interior blank lines survive as empty lines |
| Dedent.FirstLineOfTrimmed | lua/runner/strings.go:47 | The first line of a trimmed text is non-blank with indent 0 |
| Dedent.DedentIdempotent | lua/runner/strings.go:29-47 | Dedenting a dedented text changes nothing |
| Fuzzy.FuzzyMatch | internal/webui/ui/src/lib/fuzzy.ts:5-54 | The method, with its includes shortcut and its character loop, returns exactly MatchScore of its inputs |
| Fuzzy.GreedyWitness | internal/webui/ui/src/lib/fuzzy.ts:17-31 | When the greedy character loop matches the whole pattern, its positions form an increasing embedding of the pattern in the text |
| Fuzzy.EmbeddingGreedy | internal/webui/ui/src/lib/fuzzy.ts:17-31 | Whenever any increasing embedding exists, the greedy loop matches the whole pattern |
| Fuzzy.SubseqIffEmbedding | internal/webui/ui/src/lib/fuzzy.ts:17-31 | The greedy loop succeeds if and only if the pattern is a subsequence of the text |
| Fuzzy.SubstringIsSubseq | internal/webui/ui/src/lib/fuzzy.ts:16 | A text that contains the pattern has it as a subsequence |
| Fuzzy.MatchesIffSubseq | internal/webui/ui/src/lib/fuzzy.ts:16-32 | The includes shortcut never changes the verdict: a match is exactly a subsequence |
| Fuzzy.NoMatchIffNotSubsequence | internal/webui/ui/src/lib/fuzzy.ts:11-32 | The score is -1 exactly when the pattern is non-empty and its lower-cased form is not a subsequence of the lower-cased text |
| Fuzzy.EmptyPatternScoresZero | internal/webui/ui/src/lib/fuzzy.ts:10-13 | An empty pattern scores 0 against every text |
| Fuzzy.ScoreIgnoresCase | internal/webui/ui/src/lib/fuzzy.ts:6-8 | Patterns and texts equal up to lower-casing get the same score |
| Fuzzy.MatchScoreRange | internal/webui/ui/src/lib/fuzzy.ts:34-53 | A non-empty pattern that matches scores at least 100 and at most 1100 |
| Fuzzy.Tier | internal/webui/ui/src/lib/fuzzy.ts:40-48 | The tier is 1000, 500, 250 or 100 |
| Fuzzy.Bonus | internal/webui/ui/src/lib/fuzzy.ts:51 | The length bonus lies between 0 and 100 |
| Fuzzy.TierDominatesLength | internal/webui/ui/src/lib/fuzzy.ts:40-51 | A better tier always scores strictly higher, whatever the two texts' lengths |
| Fuzzy.WordLen | internal/webui/ui/src/lib/fuzzy.ts:38 | The first word of the split runs up to, and not over, the first separator of [_\-/.] |
| Fuzzy.Parts | internal/webui/ui/src/lib/fuzzy.ts:38 | The split always yields at least one part |
| Fuzzy.AnyPrefixedCons | internal/webui/ui/src/lib/fuzzy.ts:38 | Some part starts with the pattern iff the first does or some later one does |
| Fuzzy.FirstWordPrefix | internal/webui/ui/src/lib/fuzzy.ts:38 | The first part starts with the pattern iff the pattern has no separator and is a prefix of the text |
| Fuzzy.OccursInSuffix | internal/webui/ui/src/lib/fuzzy.ts:38 | An occurrence in a suffix is an occurrence in the whole text, shifted by the suffix's offset |
| Fuzzy.WordStartInSuffix | internal/webui/ui/src/lib/fuzzy.ts:38 | Word starts in the text after a separator are the word starts of the whole text, shifted |
| Fuzzy.AtWordStartSplit | internal/webui/ui/src/lib/fuzzy.ts:38 | A word-start occurrence is either at position 0 or in the text after the first separator |
| Fuzzy.ShiftOut | internal/webui/ui/src/lib/fuzzy.ts:38 | A word-start occurrence past the first separator is a word-start occurrence in the rest of the text |
| Fuzzy.ShiftIn | internal/webui/ui/src/lib/fuzzy.ts:38 | A word-start occurrence in the rest of the text is a word-start occurrence in the whole text |
| Fuzzy.WordMatchAtWordStart | internal/webui/ui/src/lib/fuzzy.ts:38 | Some part of the split starts with the pattern iff the pattern has no separator and occurs at the start of the text or right after a separator |
| Fuzzy.WordTier | internal/webui/ui/src/lib/fuzzy.ts:44-45 | Past the exact and prefix tiers, the 250 tier is given exactly to a separator-free pattern occurring at a word start |
| Fuzzy.Scores | internal/webui/ui/src/lib/fuzzy.ts:64-68 | The map step yields one score per item |
| Fuzzy.HitsAreMatches | internal/webui/ui/src/lib/fuzzy.ts:69 | The filter keeps, in input order, each position whose score is non-negative, with its score, and nothing else |
| Fuzzy.Insert | internal/webui/ui/src/lib/fuzzy.ts:70 | Inserting a hit adds exactly that hit to the multiset |
| Fuzzy.InsertRanked | internal/webui/ui/src/lib/fuzzy.ts:70 | Inserting into a ranked list keeps it ranked |
| Fuzzy.Rank | internal/webui/ui/src/lib/fuzzy.ts:70 | Ranking is a permutation of its input |
| Fuzzy.RankRanked | internal/webui/ui/src/lib/fuzzy.ts:70 | The ranked list is ordered by descending score, equal scores in input order (a stable sort) |
| Fuzzy.RankedFrom | internal/webui/ui/src/lib/fuzzy.ts:70 | Every ranked element is one of the hits |
| Fuzzy.RankedHas | internal/webui/ui/src/lib/fuzzy.ts:70 | Every hit appears in the ranking |
| Fuzzy.RankedScores | internal/webui/ui/src/lib/fuzzy.ts:64-70 | Every ranked hit names a position of the list with its non-negative score |
| Fuzzy.RankedCovers | internal/webui/ui/src/lib/fuzzy.ts:64-70 | Every position with a non-negative score is in the ranking |
| Fuzzy.RankedHits | internal/webui/ui/src/lib/fuzzy.ts:64-70 | The ranking holds each matching position exactly once, with its score, ordered by descending score and then by position |
| Fuzzy.SearchOrder | internal/webui/ui/src/lib/fuzzy.ts:59-73 | An empty pattern returns the items unchanged; otherwise the result is each matching item exactly once, by descending score, ties in input order |
| Fuzzy.MatchScore | internal/webui/ui/src/lib/fuzzy.ts:5-54 | The score is 0 for an empty pattern, and otherwise -1 or between 0 and 1100 |
| Fuzzy.FuzzySearch | internal/webui/ui/src/lib/fuzzy.ts:59-73 | An empty pattern returns the items unchanged; otherwise every result is one of the items |
| Generate.WriteStubBody | lua/generate.go:136-154 | Appends to the builder exactly the print line, the return statement for the first return type, and "end" with an empty line |
| Generate.StubBodySteps | lua/generate.go:136-154 | The text the body's writes add up to, with "end" and the blank line last, is the stub body text |
| Generate.StubBodyTextLines | lua/generate.go:136-154 | The stub body text is the print line, the return line when there are returns, "end" and an empty line, each ended by a newline |
| Generate.StubTextParts | lua/generate.go:102-154 | A stub's text is the doc line, the @param lines, the @return line, the header and the body, in that order |
| Generate.WriteFunc | lua/generate.go:102-155 | writeFunc stops with the panic of the first argument or return type whose String panics; otherwise it appends exactly the stub text |
| Generate.StubLayout | lua/generate.go:102-155 | The stub has one doc line, one @param line per argument with its types joined by bars, a @return line only when there are returns, the header with "?" trimmed from parameter names, the print line, a return line only when there are returns, "end" and a blank line |
| Generate.StubDefaults | lua/generate.go:138-152 | The return literal is "" for string, 0 for number, false for boolean and {} for table, and empty for any other first return type |
| Generate.StubAgreesWithWriteTo | lua/generate.go:102-155 | For a non-method function without overload whose first return is a basic type, writeFunc writes exactly what Function.WriteTo writes |
| Generate.StubDiffersOnCompositeReturn | lua/generate.go:138-152 | With a composite first return type writeFunc writes a bare "return" where Function.WriteTo writes "return {}" |
| Generate.StubTextSplit | lua/generate.go:102-155 | The stub text is the head up to the header, followed by the stub body |
| Generate.FunctionTextSplit | lua/generate.go:102-155 | Without an overload, Function.WriteTo's text is the same head followed by its own body |
| Generate.StubsStep | lua/generate.go:97-99 | One more stub either panics with that function's panic or extends the text by exactly its stub |
| Generate.WriteFuncs | lua/generate.go:97-99 | The loop over a runner's functions panics with the first panic, or else appends every stub in order |
| Generate.SpecForRunner | lua/generate.go:92-100 | Writes the class line and the local table line of scope TestFunctionT<name>, then every stub of the runner, or stops at the first panic |
| Generate.SortByName | lua/generate.go:165-167 | The in-place sort leaves the array sorted by name and a permutation of its old contents |
| Generate.InsertLast | lua/generate.go:165-167 | Moving the last element down keeps the prefix sorted and the contents a permutation |
| Generate.SwapDown | lua/generate.go:165-167 | The swap exchanges two neighbours and changes nothing else |
| Generate.SwapStep | lua/generate.go:165-167 | One swap keeps the insertion loop's ordering invariant |
| Generate.InsertionDone | lua/generate.go:165-167 | When the moving element stops, the prefix is sorted |
| Generate.CompactShortens | lua/generate.go:169-173 | CompactFunc never lengthens the slice, and shortens it exactly when two neighbours share a name |
| Generate.SortedDuplicateAdjacent | lua/generate.go:165-173 | In a slice sorted by name, neighbours share a name exactly when any two elements do |
| Generate.TwoPositions | lua/generate.go:165-173 | An element counted twice sits at two different positions |
| Generate.DuplicatePermutation | lua/generate.go:165-173 | Whether two helpers share a name does not depend on their order |
| Generate.InsertByName | lua/generate.go:165-167 | Inserting by name adds exactly that function |
| Generate.SortedByNames | lua/generate.go:165-167 | The reference sort is a permutation of its input |
| Generate.InsertSorted | lua/generate.go:165-167 | Inserting by name into a sorted list keeps it sorted |
| Generate.SortedByNamesSorted | lua/generate.go:165-167 | The reference sort yields a list sorted by name |
| Generate.SortedSameHead | lua/generate.go:165-167 | Two sorted permutations without shared names start with the same function |
| Generate.TailMultiset | lua/generate.go:165-167 | Two permutations with the same head have permuted tails |
| Generate.SortedUnique | lua/generate.go:165-177 | Without shared names there is only one sorted order, so the unstable sort's result is determined |
| Generate.CombineHelpers | lua/generate.go:157-178 | Fails with "duplicate function names" exactly when two collected helpers share a name; otherwise returns the helpers of every runner that has them, sorted by name |
| Generate.FieldLines | lua/generate.go:66-68 | One ---@field line per runner, in runner order |
| Generate.RunnersStep | lua/generate.go:61-63 | One more runner either panics with that runner's panic or extends the text by exactly its section |
| Generate.WriteRunners | lua/generate.go:61-63 | Writes every runner's section in order, or stops at the first panic |
| Generate.WriteFields | lua/generate.go:65-68 | Appends one field line per runner |
| Generate.WriteHelpers | lua/generate.go:77-84 | The Helper section is written with every helper's stub, or stops at the first panic |
| Generate.GenerateSpec | lua/generate.go:57-90 | The method's output is exactly the Generated specification: base, runner sections, the Test class, the helper section, trimmed and ended with one newline, or the first panic |
| Generate.TrimSpaceNotEmpty | lua/generate.go:88 | TrimSpace keeps a text with a non-space character from becoming empty |
| Generate.TrimmedWithNewline | lua/generate.go:70-88 | A text containing "Test = {}", trimmed and given a newline, ends in exactly one newline and starts with no white space |
| Generate.RenderedOneNewline | lua/generate.go:57-90 | Every rendered specification ends in exactly one newline |
| Generate.GeneratedEndsWithOneNewline | lua/generate.go:88-89 | A generated specification ends in exactly one newline and has no white space at either end besides it |
| Generate.DuplicateHelpersPanic | lua/generate.go:72-75 | GenerateSpec panics with "duplicate function names" exactly when two helpers share a name |
| Generate.TypesPanicMessage | lua/generate.go:106-124 | Every panic while writing a type list names an unknown type |
| Generate.ArgsPanicMessage | lua/generate.go:104-114 | Every panic while writing the @param lines names an unknown type |
| Generate.StubsPanicMessage | lua/generate.go:97-99 | Every panic of a runner's stubs names an unknown type |
| Generate.HelperSectionIffHelpers | lua/generate.go:77-84 | The Helper section appears exactly when some runner that has helpers has at least one, and lists them sorted by name and without loss |
| Generate.CollectedEmpty | lua/generate.go:158-163 | No helpers are collected exactly when every runner that has helpers has none |
| Generate.CollectedFrom | lua/generate.go:158-163 | A function is collected exactly when some runner with helpers lists it |
| Generate.ConvertToGoType | lua/generate.go:180-212 | Fails (the default-branch panic) exactly on a userdata or function, or a table that holds one or, read as a map, has a table key; a table with Len() 0 becomes a map, any other table a list of as many values as ForEach visits |
| Generate.ConvertMap | lua/generate.go:192-199 | The map branch fails exactly when an entry is bad, keeps the keys already added, and holds every present key, converted |
| Generate.MapKeys | lua/generate.go:192-199 | A key is in the map exactly when it was already there or some visited entry's key converts to it; no other key appears |
| Generate.MapLastWins | lua/generate.go:192-199 | A key maps to the converted value of the last visited entry whose key converts to it |
| Generate.MapKept | lua/generate.go:192-199 | A key already in the map that no visited entry's key converts to keeps its value |
| Generate.ConvertList | lua/generate.go:200-208 | The list branch fails exactly when a visited value is unconvertible, and otherwise keeps the values already collected and adds one per visited slot |
| Generate.ListItems | lua/generate.go:200-208 | After the values already collected, the n-th list element is the converted value of the n-th visited slot in ForEach order |
| Generate.EmptyTableIsEmptyMap | lua/generate.go:192-199 | An empty table becomes an empty map, never a list |
| Generate.ListKeepsOrder | lua/generate.go:200-208 | A table used as a plain list becomes the list of its converted elements, in order |
| Generate.MapHasEveryKey | lua/generate.go:192-199 | Every present key of a converted map-like table is a key of the map |
| Generate.TableKeyPanics | lua/generate.go:196 | A table used as a key makes the map conversion fail, since Go cannot hash the slice or map it becomes |
| Generate.BadEntryFrom | lua/generate.go:195-197 | One bad entry at or after a position makes the hash part bad from that position |
| JsonReporter.RecordsTaggedWithFile | lua/json_reporter.go:28-68 | A callback writes one record per Error and Info call and two per test, and every record carries the file the reporter is bound to |
| JsonReporter.TopLevelTagged | lua/json_reporter.go:53-69 | An Error or Info record written at the top level of a callback is among its records and carries the reporter's own name and runner |
| JsonReporter.FileRunFramed | lua/json_reporter.go:23-33 | A file run writes exactly one start record first, one end record last, and between them only the callback's records, none of which is file-level |
| JsonReporter.NoFileRecords | lua/json_reporter.go:36-68 | Every record a callback writes has a "name" and a "file" key |
| JsonReporter.Encoder.Encode | lua/json_reporter.go:24 | Encoding appends exactly one record to the stream |
| JsonReporter.JsonReporter.constructor | lua/json_reporter.go:19-21 | A new reporter is bound to no file, name or runner |
| JsonReporter.JsonReporter.Bound | lua/json_reporter.go:28-43 | The child reporter shares the encoder and is bound to the given file, name and runner |
| JsonReporter.JsonReporter.RunFile | lua/json_reporter.go:23-33 | Appends the start record, the callback's records from a reporter bound to the file only, and the end record |
| JsonReporter.JsonReporter.RunTest | lua/json_reporter.go:35-51 | Appends the start record tagged with file, name and runner, the callback's records bound to them, and the end record |
| JsonReporter.JsonReporter.Error | lua/json_reporter.go:53-60 | Appends exactly one error record tagged with the reporter's file, name and runner |
| JsonReporter.JsonReporter.Info | lua/json_reporter.go:62-69 | Appends exactly one info record tagged with the reporter's file, name and runner |
| JsonReporter.JsonReporter.Run | lua/json_reporter.go:23-69 | Making a callback's calls in order appends exactly the records Records gives for them |
| Matcher.NoRulesIsEquality | lua/runner/check.go:36-37 | Without rules the comparison is plain equality of the two trees |
| Matcher.EqualSymmetric | testmanager/parser/file.go:57 | The verdict does not depend on which side is passed first (check.go passes the expected value first, file.go the actual one) |
| Matcher.StructuralSymmetric | lua/runner/check.go:36 | The kind-by-kind comparison is symmetric |
| Matcher.SameFilters | lua/runner/check.go:169-176 | Two rule lists holding the same rules ignore and check the same paths |
| Matcher.SameFiltersOneWay | lua/runner/check.go:169-176 | A rule list contained in another ignores and checks no path the other does not |
| Matcher.EqualSameRules | lua/runner/check.go:36 | The verdict depends only on the set of rules, not their order or repetition |
| Matcher.StructuralSameRules | lua/runner/check.go:36 | The kind-by-kind comparison depends only on the set of rules |
| Matcher.NotNullRuleDecides | lua/runner/check.go:169-183 | Where a not-null rule applies and no ignore rule does, two values compare equal exactly when neither is nil |
| Matcher.IgnoreRuleAcceptsAll | lua/runner/check.go:173-176 | Where an ignore rule applies, any two values compare equal, and so does a map entry present on one side only |
| Matcher.MissingEntryNeedsIgnore | lua/runner/check.go:36 | A map key present on one side only compares equal exactly when an ignore rule applies at its path |
| Matcher.Equal | lua/runner/check.go:36-37 | Without rules the verdict is plain equality, and the verdict is the same with the two sides swapped |
| Matcher.WildcardIgnoreAnyLength | testmanager/parser/file.go:25-26 | An IGNORE rule on `items.*` makes two lists compare equal whatever their lengths, because go-cmp drops the ignored elements first |
| Matcher.ExactRulesKeepLength | lua/runner/check.go:169-176 | When no rule targets a list element standing alone, as with the exact paths check.go records, equal lists have equal lengths |
| Parser.KeptLines | testmanager/parser/parser.go:61-66 | Keeps at most the lines it is given |
| Parser.RemoveComments | testmanager/parser/parser.go:59-68 | The loop keeps, in order, the lines not starting with "//" and joins them with "\n" |
| Parser.KeptLinesFilter | testmanager/parser/parser.go:62-66 | A line is kept exactly when it is an input line that does not start with "//" |
| Parser.KeptLinesNoComments | testmanager/parser/parser.go:62-66 | Without comment lines every line is kept, in order |
| Parser.NoCommentsUnchanged | testmanager/parser/parser.go:59-68 | A text without comment lines comes back unchanged |
| Parser.UncommentedIdempotent | testmanager/parser/parser.go:59-68 | Removing comments twice removes nothing more |
| Parser.OptionChunkShape | testmanager/parser/parser.go:33-43 | An option path never contains "="; a non-blank chunk without "=" makes the loop panic at ps[1] |
| Parser.StoreChunkShape | testmanager/parser/parser.go:48-51 | A STORE chunk without "=" panics at sp[1]; a stored name and path never contain "=" (the path stops at a second "=") |
| Parser.Chunks | testmanager/parser/parser.go:33-51 | One interpreted chunk per piece, in order |
| Parser.CollectCompletes | testmanager/parser/parser.go:33-51 | A section's loop completes exactly when none of its chunks panics |
| Parser.CollectKeys | testmanager/parser/parser.go:42-50 | The map holds exactly the keys of the chunks that are pairs |
| Parser.CollectLastWins | testmanager/parser/parser.go:42-50 | Each key holds the value of the last chunk naming it: a later duplicate overwrites an earlier one |
| Parser.BrokenChunkPanics | testmanager/parser/parser.go:37-50 | One panicking chunk makes the whole parse panic, whatever follows |
| Parser.CollectSnoc | testmanager/parser/parser.go:33-51 | One more chunk skips, adds its pair or panics |
| Parser.CollectChunks | testmanager/parser/parser.go:33-51 | The loop over one section's chunks returns what Collect gives for them |
| Parser.Parse | testmanager/parser/parser.go:13-57 | Removes comments, renders the template (a render error is returned wrapped with "parser.Parse: failed to render template: "), then splits the text into query, options, expected text and store, with fresh maps |
| Parser.ReturnsIsRequired | testmanager/parser/parser.go:25-28 | Text without RETURNS makes Parse panic reading parts[1] |
| Parser.ParsedSections | testmanager/parser/parser.go:25-54 | On success the query is the trimmed text before the first RETURNS and contains no RETURNS, and the expected text contains no STORE |
| Parser.OptionsNeedEndOpts | testmanager/parser/parser.go:28-31 | Without ENDOPTS no option is read, even when OPTION text is present |
| Parser.ParsedPairsShape | testmanager/parser/parser.go:37-50 | Parsed option paths, store names and store paths never contain "=" |
| Parser.LastIndexOf | testmanager/parser/parser.go:42-50 | Finds the last chunk with the key of a given chunk |
| Parser.ParseRendered | testmanager/parser/parser.go:25-57 | Splitting the rendered text can fail only with the index-out-of-range panic |
| ParserFile.CmpOpts | testmanager/parser/file.go:19-32 | Succeeds exactly when every option is NOTNULL or IGNORE, and then yields one rule per option (not-null comparer or ignore at "." + path); otherwise the error names an unknown option and its path |
| ParserFile.RulesForStep | testmanager/parser/file.go:21-26 | Appending the rule of one more known option keeps the rules one per path done |
| ParserFile.RulesForAll | testmanager/parser/file.go:19-32 | When every path is done the rules are exactly those of all the options, all of them known |
| ParserFile.IgnorePath | testmanager/parser/file.go:97-113 | A path matches exactly when its exact rendering or its rendering with every list index as "*" equals "." + path |
| ParserFile.Vars.constructor | testmanager/parser/file.go:34 | The shared state starts with the given entries |
| ParserFile.StoredOfAdd | testmanager/parser/file.go:93 | Writing one more found value adds exactly that key to the written entries |
| ParserFile.AppendStore | testmanager/parser/file.go:63-95 | Writes state[key] for every store entry whose walk completes (a missing last key reads as nil) and touches no other key; it panics exactly when some walk panics, keeping the writes made before |
| ParserFile.Expected | testmanager/parser/file.go:43-50 | Before decoding, the expected value is an empty list when RETURNS starts with "[" and an empty map otherwise; a decoded document replaces it |
| ParserFile.Execute | testmanager/parser/file.go:34-61 | An executor error is returned unchanged with the state untouched; a map result is stored into state before anything is compared, so the state changes even when decoding, the options or the comparison then fail; a bad document, an unknown option and a mismatch each give their error; otherwise it succeeds exactly when the result equals the expected value under the option rules |
| ParserFile.OptionOrderIrrelevant | testmanager/parser/file.go:21 | The verdict does not depend on the order map iteration gave the options |
| ParserFile.NoOptionsMeansEquality | testmanager/parser/file.go:57 | Without options the result must equal the expected document |
| ParserFile.WildcardOption | testmanager/parser/file.go:97-113 | An option applies at every path whose wildcard rendering it names, whatever the list indices: IGNORE ignores the value there and NOTNULL demands two non-nil values |
| ParserFile.WildcardCoversEveryIndex | testmanager/parser/file.go:106-108 | "items.*.id" is the wildcard rendering of the id of every element of "items" |
| Placeholders.CheckString | lua/spec/funcs.go:15 | The name argument must be a string or a number (read as its text); anything else raises a type error naming argument 1 |
| Placeholders.OptBool | lua/spec/funcs.go:16-34 | The optional flag is false when absent or nil, its value when a boolean, and a type error otherwise |
| Placeholders.Save | lua/spec/funcs.go:14-27 | Save returns exactly when its arguments type-check, and then pushes exactly one userdata carrying SaveData{Name, IgnoreNull} |
| Placeholders.Ignore | lua/spec/funcs.go:33-44 | Ignore returns exactly when its optional argument is nil or a boolean, and then pushes exactly one userdata carrying IgnoreData{IgnoreNull} |
| Placeholders.SaveRecordsPath | lua/runner/check.go:148-153 | A Save placeholder records path to name in toSave and adds a not-null rule at that path, or an ignore rule when IgnoreNull is set |
| Placeholders.IgnoreAddsRule | lua/runner/check.go:154-158 | An Ignore placeholder is never added to toSave and adds a not-null rule at its path, or an ignore rule when IgnoreNull is set |
| Placeholders.IgnoreVerdicts | lua/runner/check.go:169-183 | `Ignore(true)` accepts anything at its key, a missing entry included, while `Ignore()` demands a present non-nil value on both sides |
| Placeholders.NullMarkerPanics | lua/spec/funcs.go:7 | The field-less Null marker is not a placeholder: converting it panics |
| PubSub.FirstMatch | lua/runner/pubsub.go:95-109 | The loop stops at the first received message whose target StdCheckError accepts: every earlier one is rejected; None exactly when all are rejected |
| PubSub.FirstMatchAt | lua/runner/pubsub.go:104-108 | A message that is accepted after only rejected ones is the first match |
| PubSub.ErrorsOfMismatches | lua/runner/pubsub.go:94-106 | When no message matches, every message contributes its error, in order |
| PubSub.Verdict | lua/runner/pubsub.go:85-116 | check passes exactly when the topic is registered and some received message matches |
| PubSub.NoMatchRaisesAllErrors | lua/runner/pubsub.go:94-115 | A registered topic with messages none of which matches raises the newline-joined errors of all of them, so the final "no matching messages" raise is never reached |
| PubSub.SentIgnored | lua/runner/pubsub.go:81-117 | Two topic tables with the same keys and the same Received lists give the same verdict: Sent is never inspected |
| PubSub.PubSub.constructor | lua/runner/pubsub.go:32-36 | A fresh PubSub has a nil topics map |
| PubSub.PubSub.Send | lua/runner/pubsub.go:129-144 | The message is appended to the topic's Sent list, the topic is created when missing, its Received list and every other topic are unchanged |
| PubSub.PubSub.Receive | lua/runner/pubsub.go:146-160 | The message is appended to the topic's Received list, the topic is created when missing, its Sent list and every other topic are unchanged |
| PubSub.PubSub.EmptyPubSubTopic | lua/runner/pubsub.go:119-127 | On a nil map the write panics and nothing changes; otherwise the topic is reset to empty lists, which registers it |
| PubSub.PubSub.Messages | lua/runner/pubsub.go:182-192 | An unknown topic has no messages; a known one yields its Received list |
| PubSub.PubSub.TopicNames | lua/runner/pubsub.go:170-180 | Lists each topic name exactly once |
| PubSub.PubSub.Check | lua/runner/pubsub.go:81-117 | Raises "not registered" for an unknown topic, "no messages" for an empty Received list, passes at the first matching message, and otherwise raises the joined errors; it passes iff the topic is registered and some received message matches; the result is Verdict of the current table |
| PubSub.Target | lua/runner/pubsub.go:96-102 | The value a message is compared against is always a map: the round-tripped {"data", "attributes"} object, or the empty map when Marshal fails |
| PubSub.JsonKeepsJson | lua/runner/pubsub.go:101-102 | A value with no Go int, no map[any]any and no NaN or infinity comes back from the JSON round trip unchanged |
| PubSub.JsonYieldsJson | lua/runner/pubsub.go:101-102 | Whatever the round trip yields has no Go int, no map[any]any and no NaN or infinity |
| PubSub.JsonIdempotent | lua/runner/pubsub.go:101-102 | A second JSON round trip changes nothing |
| PubSub.TargetOfJsonMessage | lua/runner/pubsub.go:96-102 | A message whose payload the encoding keeps exactly is compared as {"data": msg, "attributes": attributes}, a nil map as null |
| PubSub.IntComesBackFloat | lua/runner/pubsub.go:101-102 | A Go int in a payload is compared as a float64 |
| PubSub.UnencodableIsEmpty | lua/runner/pubsub.go:101-102 | A payload holding NaN or an infinity makes Marshal fail, and the message is compared as the empty map |
| SpecTypes.TypeStringsSnoc | lua/spec/interfaces.go:78-83 | Rendering one more type appends exactly its String text |
| SpecTypes.FirstSomeIsFirst | lua/spec/interfaces.go:41-83 | A run of String calls panics exactly when some call panics, and then with the panic of the first such call |
| SpecTypes.FirstSomePrefix | lua/spec/interfaces.go:78-83 | A panic in a prefix of the calls is the panic of the whole run |
| SpecTypes.FirstSomeSnoc | lua/spec/interfaces.go:78-83 | One more call after a prefix either adds its panic or, if the prefix panicked, changes nothing |
| SpecTypes.ArgTextsSnoc | lua/spec/interfaces.go:101-103 | One more argument appends exactly its String text |
| SpecTypes.ParamNames | lua/spec/interfaces.go:155-160 | There is one signature name per argument |
| SpecTypes.ParamNamesSnoc | lua/spec/interfaces.go:155-160 | One more argument adds its name with trailing "?" trimmed |
| SpecTypes.Builder.Write | lua/spec/interfaces.go:114-185 | strings.Builder.WriteString appends its argument to the text and changes nothing else |
| SpecTypes.WriteTypes | lua/spec/interfaces.go:122-128 | Writes the types joined by the separator, or stops with the first String panic |
| SpecTypes.WriteParam | lua/spec/interfaces.go:121-129 | Writes one @param line, the name followed by the types joined by bars, or the first type panic |
| SpecTypes.ParamLinesSnoc | lua/spec/interfaces.go:120-130 | One more argument adds exactly its @param line |
| SpecTypes.ArgsPanicStep | lua/spec/interfaces.go:120-130 | One more argument either panics with its first type panic or leaves the run without panic |
| SpecTypes.WriteParams | lua/spec/interfaces.go:120-130 | Writes every @param line in argument order, or stops with the first panic |
| SpecTypes.WriteReturns | lua/spec/interfaces.go:132-142 | Writes the @return line only when there are return types, or stops with the first panic |
| SpecTypes.OverloadArgs | lua/spec/interfaces.go:97-103 | The overload's argument strings are "self: scope" followed by every argument's String, or the first panic |
| SpecTypes.OverloadReturns | lua/spec/interfaces.go:105-108 | The overload's return strings are every return type's String, or the first panic |
| SpecTypes.WriteOverloadTo | lua/spec/interfaces.go:96-116 | Writes one "---@overload fun(self: scope, ...)" line, with ": returns" only when there are returns; a panic writes nothing |
| SpecTypes.WriteParamNames | lua/spec/interfaces.go:155-160 | Writes the argument names, "?" trimmed, separated by ", " |
| SpecTypes.WriteHeader | lua/spec/interfaces.go:148-161 | Writes "function scope" then ":" for a method or "." otherwise, the name and the parameter list |
| SpecTypes.HeaderText | lua/spec/interfaces.go:148-161 | The header's writes add up to the header line |
| SpecTypes.WriteBody | lua/spec/interfaces.go:162-185 | Writes the print line, the return statement chosen by the first return type, and "end" with an empty line |
| SpecTypes.BodyTextSteps | lua/spec/interfaces.go:162-185 | The body's writes add up to the body text |
| SpecTypes.BodyTextLines | lua/spec/interfaces.go:162-185 | The body text is the body lines, each ended by a newline |
| SpecTypes.WriteTo | lua/spec/interfaces.go:118-186 | Function.WriteTo either panics with the first type panic of the signature or overload, or appends exactly the function's stub text |
| SpecTypes.FunctionTextParts | lua/spec/interfaces.go:118-186 | The stub text is the doc, @param, @return and @overload lines, the header and the body, in that order |
| SpecTypes.ArgumentPanicsOnUnknownCode | lua/spec/interfaces.go:41-84 | Argument.String panics exactly when one of its types is an ArgumentTypeA outside 0-3, with "unknown type: " and the first such code; otherwise it is the name, ": " and the types joined by bars |
| SpecTypes.NestedUnknownCodeIsPrinted | lua/spec/interfaces.go:192-194 | An unknown ArgumentTypeA inside an array type does not panic: fmt prints the recovered panic in place of the element type |
| SpecTypes.ParamLinesAt | lua/spec/interfaces.go:120-130 | The i-th @param line is the i-th argument's line |
| SpecTypes.ParamNamesAt | lua/spec/interfaces.go:155-160 | The i-th signature name is the i-th argument's name with trailing "?" trimmed |
| SpecTypes.FunctionLayout | lua/spec/interfaces.go:118-186 | The stub has the doc line, one @param line per argument, a @return line only with returns, an @overload line only with an overload, the header, the print line, a return line only with returns, "end" and a blank line |
| SpecTypes.DocLayout | lua/spec/interfaces.go:119-142 | The head of the stub is the doc line, then one @param line per argument, then the @return line when there are returns |
| SpecTypes.HeadLayout | lua/spec/interfaces.go:119-146 | The head of the stub ends with the @overload line exactly when there is an overload |
| SpecTypes.BodyLayout | lua/spec/interfaces.go:148-185 | The tail of the stub is the header, the print line, the return line only with returns, "end" and a blank line |
| SpecTypes.FunctionTextLines | lua/spec/interfaces.go:118-186 | Splitting the stub text at newlines gives back its lines and a final empty string |
| SpecTypes.HeaderNamesStripped | lua/spec/interfaces.go:159 | Each signature name is its argument's name with only trailing "?" characters removed, and does not end in "?" |
| SpecTypes.FunctionsSnoc | lua/spec/interfaces.go:246-280 | One more function extends the text by its stub and the panic by its own panic |
| SpecTypes.FirstSomeAppend | lua/spec/interfaces.go:246-280 | The first panic of two runs is the first run's panic, or else the second's |
| SpecTypes.GetSetFunctionsAppend | lua/spec/interfaces.go:246-275 | The get/set stubs of two lists are those of the first followed by those of the second |
| SpecTypes.GetSetFunctionsSplit | lua/spec/interfaces.go:246-275 | The get/set stubs of a list split at any point are those of the two parts |
| SpecTypes.MethodFunctionsAppend | lua/spec/interfaces.go:277-280 | The method stubs of two lists are those of the first followed by those of the second |
| SpecTypes.PanicInPrefix | lua/spec/interfaces.go:246-280 | A function that panics after functions that do not stops the run with its panic |
| SpecTypes.GetSetsSnoc | lua/spec/interfaces.go:246-275 | One more get/set pair adds its stub, if any |
| SpecTypes.GetSetsPanic | lua/spec/interfaces.go:246-275 | A pair whose stub panics after pairs that do not is the panic of the whole loop |
| SpecTypes.GetSetsStep | lua/spec/interfaces.go:246-275 | One more get/set pair adds nothing when it has neither getter nor setter, and otherwise adds its stub's text or panic |
| SpecTypes.WriteGetSets | lua/spec/interfaces.go:246-275 | The get/set loop writes every pair's stub in order, skipping empty pairs, or stops at the first panic |
| SpecTypes.MethodFunctionsSnoc | lua/spec/interfaces.go:277-280 | One more method adds its copy marked as a method |
| SpecTypes.MethodsStep | lua/spec/interfaces.go:277-280 | One more method adds its stub's text or panic |
| SpecTypes.WriteMethods | lua/spec/interfaces.go:277-280 | The methods loop writes each method, marked as a method, in order, or stops at the first panic |
| SpecTypes.FunctionsTextAppend | lua/spec/interfaces.go:246-280 | The stubs of two lists are those of the first followed by those of the second |
| SpecTypes.FunctionsOne | lua/spec/interfaces.go:240-244 | The stubs of one function are its stub |
| SpecTypes.MetatableString | lua/spec/interfaces.go:232-283 | Typemetatable.String renames the shared Init to "new" returning the metatable, then yields the class header, the Init stub, the get/set stubs and the method stubs, or the first panic |
| SpecTypes.MetatableParts | lua/spec/interfaces.go:232-283 | The three groups of stubs together panic with the first group's panic, and their text is the three texts in order |
| SpecTypes.GetSetsAndMethodsAreMethods | lua/spec/interfaces.go:253-279 | Every getter, setter and method is written as a method, its header using ":" |
| SpecTypes.GetSetWritten | lua/spec/interfaces.go:247-274 | A get/set pair is written exactly when it has a getter or a setter; with both, the getter's stub carries the setter as its overload |
| SpecTypes.TypeString | lua/spec/interfaces.go:41-210 | A basic type prints as empty text exactly when its String panics; an array type ends in "[]"; a table literal is enclosed in braces |
| Store.StepFrom | lua/runner/check.go:61-81 | One step of the walk: the last segment is read (nil when absent); a segment followed by a decimal segment, not the last, must be a list whose element at that index is a map, or the step panics; any other segment moves into its value when that is a map and stays put otherwise; a step that goes on always advances |
| Store.Follow | lua/runner/check.go:59-82 | The loop both appendStore functions run returns exactly the result of the walk |
| Store.Segments | lua/runner/check.go:124-137 | One rendered segment per step: the key, or the decimal index |
| Store.SplitExact | lua/runner/check.go:124-137 | The path convertToCheck records splits at "." into "" followed by the step segments, when no key holds a dot |
| Store.WalkThroughList | lua/runner/check.go:66-75 | Through a list element the walk skips the index segment and continues in the element's map |
| Store.WalkIntoMap | lua/runner/check.go:77-80 | Into a nested map the walk continues with the next segment |
| Store.WalkFromFinds | lua/runner/check.go:59-82 | From any step of a walkable path, the walk reaches the value at the recorded path |
| Store.WalkFindsValue | lua/runner/check.go:49-82 | For a path whose keys hold no dot and do not read as integers, with a list index only after a key and never last, the saved value is the value at the placeholder's path (provided the body has no map under the empty key) |
| Store.LeafListElementReadsNil | lua/runner/check.go:61-65 | A placeholder that is itself a list element is never reached: for ".k.n" the walk reads key n of the top-level map and saves nil, although the path exists |
| Store.NumericKeyPanics | lua/runner/check.go:66-70 | A map key that reads as a decimal integer is taken for a list index, so the walk panics although the path exists |
| Store.NestedAt | lua/runner/check.go:124 | Three nested map keys reach the innermost value |
| Strs.TrimSpace | testmanager/parser/parser.go:26 | strings.TrimSpace returns the text between the leading and the trailing white space (unicode.IsSpace), which starts and ends with a non-space character |
| Strs.TrimSpaceIdempotent | testmanager/parser/parser.go:49-50 | Trimming an already trimmed text changes nothing |
| Strs.TrimSpaceKeepsOut | testmanager/parser/parser.go:49-50 | Trimming never brings in an occurrence of a text that was not there |
| Strs.Atoi | lua/runner/check.go:68 | strconv.Atoi accepts only text ending in a decimal digit, and an unsigned or "+" text gives a non-negative number |
| Strs.AtoiRejects | lua/runner/check.go:68-69 | A segment starting with neither a sign nor a digit is not a list index |
| Strs.AtoiItoa | lua/runner/check.go:128-137 | Atoi reads back every index strconv.Itoa writes, negative ones included |
| Strs.ItoaHasNoDot | lua/runner/check.go:128-137 | strconv.Itoa never writes a ".", so an index is always one path segment |
| Strs.ToLower | internal/webui/ui/src/lib/fuzzy.ts:7-8 | toLowerCase keeps the length and lowers each character on its own, A to Z and the accented capitals of Latin-1 |
| Strs.QuoteChar | lua/spec/interfaces.go:27-32 | A character is written with a leading backslash exactly when strconv.Quote escapes it: backslash, double quote, the controls, DEL and the Latin-1 characters unicode.IsPrint rejects |
| Strs.Quote | lua/spec/interfaces.go:27-32 | strconv.Quote's result is enclosed in double quotes |
| Strs.Split | lua/runner/check.go:59 | strings.Split always yields at least one piece |
| Strs.JoinSplit | lua/runner/check.go:59 | Joining the pieces of a split with the same separator gives back the path |
| Strs.SplitPiecesFree | lua/runner/check.go:59 | No piece of a split contains the separator |
| Strs.SplitJoin | lua/runner/check.go:59 | Splitting pieces joined by a one-character separator they do not contain gives back the pieces |
| Suite.SetupStep | lua/suite.go:222-251 | Setup runs only while setupDone is false; the flag ends true exactly when it was true or the step returned; a failure leaves the context and the flag alone; a success stores doSetup's runners and cleanup and keeps the current reporter on the new context |
| Suite.SetupOnce | lua/suite.go:222-225 | After one successful setup every later call returns at once and changes nothing, whatever the configuration or doSetup would now give |
| Suite.FailedSetupKeepsRunners | lua/suite.go:236-241 | A doSetup error raises "error during setup: ..." but still stores the runners and the cleanup, and leaves the flag false |
| Suite.BadConfigChangesNothing | lua/suite.go:227-231 | A configuration that cannot be converted or decoded stops setup before doSetup and changes nothing |
| Suite.FindRunner | lua/suite.go:168-178 | No runner is found exactly when none has the name; otherwise the one found is a runner with that name |
| Suite.FindRunnerIsFirst | lua/suite.go:168-174 | The runner found is the first with the name |
| Suite.FindFunction | lua/suite.go:101-107 | No function is found exactly when none has the name; otherwise the one found has that name |
| Suite.FindGetSet | lua/suite.go:296-301 | No property is found exactly when none has the name; otherwise the one found has that name |
| Suite.LookupRunner | lua/suite.go:168-174 | The loop that breaks at the first match finds exactly FindRunner's runner |
| Suite.LookupFunction | lua/suite.go:101-107 | The loop that breaks at the first match finds exactly FindFunction's function |
| Suite.LookupGetSet | lua/suite.go:296-301 | The loop that breaks at the first match finds exactly FindGetSet's property |
| Suite.AssignAppend | lua/suite.go:73-152 | Writing two runs of entries into a table is writing the first run, then the second |
| Suite.AssignSnoc | lua/suite.go:73-152 | One more entry sets its key to its value |
| Suite.AssignKeys | lua/suite.go:73-152 | The table's keys are its starting keys and the keys of the entries |
| Suite.AssignLastWins | lua/suite.go:73-152 | The last entry written for a key is the one that stays |
| Suite.AssignUntouched | lua/suite.go:73-152 | A key no entry names keeps its starting value, or stays absent |
| Suite.FunctionEntries | lua/suite.go:188-193 | The block's function table gets one entry per runner function, keyed by its name |
| Suite.FuncMapContents | lua/suite.go:188-193 | Every runner function's name is a key; each key is some function's name; the entry of a name is the last function with it |
| Suite.BuildFuncMap | lua/suite.go:188-193 | The loop fills exactly the function table FuncMap describes |
| Suite.TestEntries | lua/suite.go:73-77 | Test gets one entry per runner of the manager, keyed by its name |
| Suite.TestTableContents | lua/suite.go:73-80 | Test has exactly the manager's runner names as keys, each bound to the test of that runner name |
| Suite.LastNamed | lua/suite.go:75-77 | For every runner there is a last runner with its name, the one whose entry stays |
| Suite.BuildTests | lua/suite.go:73-77 | The loop fills exactly the Test table TestTable describes |
| Suite.HelpersOf | lua/suite.go:85-115 | One Helper entry per helper of a runner, keyed by the helper's name and remembering the runner's name |
| Suite.ManagerEntries | lua/suite.go:119-124 | One Helper entry per manager-level helper, keyed by its name |
| Suite.ManagerHelperWins | lua/suite.go:119-124 | A manager-level helper replaces any runner helper of the same name |
| Suite.RunnerHelperKept | lua/suite.go:82-124 | Without a manager helper of the name, the Helper entry is the last runner helper of that name, or absent |
| Suite.RunnerHelperEntriesFrom | lua/suite.go:83-117 | Every runner helper entry comes from a runner that implements HasHelperFunctions and lists that helper |
| Suite.BuildHelpers | lua/suite.go:82-127 | The loops fill exactly the Helper table HelperTable describes |
| Suite.AddRunnerHelpers | lua/suite.go:85-115 | The inner loop adds one runner's helpers to the table, in order |
| Suite.PropertyEntries | lua/suite.go:139-144 | One __index entry per property, keyed by its name |
| Suite.MethodEntries | lua/suite.go:146-151 | One __index entry per method, keyed by its name |
| Suite.MethodShadowsProperty | lua/suite.go:138-152 | A method replaces a property of the same name in __index |
| Suite.BuildIndex | lua/suite.go:138-152 | The loops fill exactly the __index table IndexTable describes |
| Suite.AddProperties | lua/suite.go:139-144 | The properties loop writes every property's entry, in order |
| Suite.AddMethods | lua/suite.go:146-151 | The methods loop writes every method's entry, in order |
| Suite.TablesLookAlike | lua/suite.go:353-354 | The log shows every table as "{...}" |
| Suite.StringsAreNotQuoted | lua/suite.go:347-348 | Strings are logged unquoted, so a string can look exactly like nil, a boolean or a table |
| Suite.OptionalLabel | lua/suite.go:262-263 | An optional argument "x?" is logged with the label "x", only one "?" removed |
| Suite.VariadicUnlabelled | lua/suite.go:264-266 | No logged argument is ever labelled "..." |
| Suite.LabelledArgs | lua/suite.go:312-324 | One logged argument per stack value from the start position on |
| Suite.LabelledArgAt | lua/suite.go:312-324 | Logged argument k is the stack value at start + k, labelled by definition k |
| Suite.SelfNotLogged | lua/suite.go:306-310 | For a method, self is never logged and the first definition labels the first argument after it |
| Suite.CollectArgs | lua/suite.go:312-324 | The argument loop over stack positions startArg to the top yields exactly LabelledArgs |
| Suite.SaveValue | lua/suite.go:362-375 | save accepts exactly strings, ints, float64s and bools, and panics with "unsupported save type: " and the Go type otherwise |
| Suite.SavedReadsBack | lua/suite.go:362-377 | What save stores reads back as what was saved |
| Suite.SaveNilPanics | lua/suite.go:373-374 | Saving nil panics with "unsupported save type: <nil>" |
| Suite.AfterTestOnlyWithHook | lua/suite.go:211-216 | AfterTest runs last exactly for runners that implement it, failed block or not, and on the restored context |
| Suite.FailureReportedOnce | lua/suite.go:201-208 | A failed block is reported once, to the test's reporter, as a diff error exactly when a CheckError is found; a passing block reports nothing |
| Suite.BlockSeesTestReporter | lua/suite.go:183-186 | The test block sees the test's own reporter and the save function, and everything else of the context before the test |
| Suite.HelperTarget | lua/suite.go:86-124 | A manager helper calls its own function; a runner helper calls the helper of the same name of the runner setup produced under that runner's name, or raises "not found" |
| Suite.TypeArgDefs | lua/suite.go:283-303 | The lookups give Init's arguments for "new" with an Init, otherwise the first method's arguments of the name, or failing that the first property's set arguments |
| Suite.TitlesDistinct | lua/suite.go:327-332 | For any method name other than "new", the method title differs from the constructor's title "T.new" |
| Suite.TypeTarget | lua/suite.go:133-151 | A type metatable entry panics exactly when it is the constructor of a type without Init; otherwise it calls its function or property |
| Suite.Suite.constructor | lua/suite.go:32-71 | A new suite has setup not done, no runners, no cleanup, an empty State and the file reporter on its context |
| Suite.Suite.Setup | lua/suite.go:222-251 | The fields setup touches change exactly as SetupStep says, and State and the log do not change |
| Suite.Suite.NewTest | lua/suite.go:161-220 | Test.<runner>(name, fn) runs setup, then raises "runner ... not found" or runs the block with exactly TestEvents, on the restored context |
| Suite.Suite.RunTest | lua/suite.go:180-216 | Running a block appends exactly TestEvents and puts the context back |
| Suite.Suite.CallHelper | lua/suite.go:254-279 | A Helper call is logged as "Helper.<name>" with its labelled arguments on the current context, then setup, then HelperTarget |
| Suite.Suite.CallTypeMember | lua/suite.go:283-342 | A type metatable call is logged with its title and labelled arguments, self skipped except for "new", then setup, then TypeTarget |
| Suite.Suite.Save | lua/suite.go:362-378 | save stores the converted value in State under the key, or panics and leaves State unchanged |
| Suite.Suite.Finish | lua/suite.go:48-158 | The end of run reports a DoFile error to the file reporter, then calls the cleanup setup stored, if any |
| Suite.FormatLuaValue | lua/suite.go:345-360 | The log writes a string as it is, unquoted, every table as "{...}" and nil as "nil" |
| Suite.ArgLabel | lua/suite.go:262-266 | A label is never "...", and an argument past the definitions has no label |
| Suite.ArgLabelFrom | lua/suite.go:262-266 | A non-empty label is the name of the definition at that position, or that name without its one trailing "?" |
| Suite.LabelAt | lua/suite.go:262-266 | The trimming in the argument loop computes exactly ArgLabel |
| Suite.TestEvents | lua/suite.go:180-216 | A block run reports RunTest first and calls the block second, then adds one error report exactly when the block failed and one AfterTest exactly when the runner implements it |
| Suite.ArgDefs | lua/suite.go:283-303 | The argument definitions are Init's for "new", or those of a method or property of that name; without any member of the name there are none |
| TestCase.TrimTrailingSlashes | testmanager/testcase.go:131 | The trimmed path does not end in "/" (the first step of filepath.Base) |
| TestCase.AfterLastSlash | testmanager/testcase.go:131 | The last element of a path holds no "/" |
| TestCase.Case.constructor | testmanager/testcase.go:52-57 | A new test case has no runners and no recorded failure |
| TestCase.Case.Register | testmanager/testcase.go:26-39 | The runner is keyed by its extension plus ".test"; a second runner for a key is refused with an error naming the key and the map is unchanged; otherwise exactly that key is added |
| TestCase.Case.RunTestFile | testmanager/testcase.go:95-128 | A name not ending in ".test" is ignored; after an earlier failure the file is skipped; otherwise the result is the file's own outcome: a missing runner, an unreadable file or a run error each fail the file and set hasError; hasError is never cleared and the runners never change |
| TestCase.Base | testmanager/testcase.go:100 | filepath.Base never returns "" and returns "/" or a name without "/" |
| TestCase.Ext | testmanager/testcase.go:130-139 | A non-empty extension follows a "." at the end of the base name |
| TestCase.Case.RunTestFiles | testmanager/testcase.go:85-128 | One result per file: a test file after an earlier failure is skipped, and every other file gets the outcome runTestFile gives it with the runners the case started with (ignored unless it ends in ".test", then a missing runner, an unreadable file and a run error each fail it, and otherwise it passes); hasError ends true exactly when some file failed |
| TestCase.OutcomeFails | testmanager/testcase.go:108-126 | A file fails exactly when it is a test file and it has no runner for its extension, cannot be read, or its runner returns an error; its own outcome is never a skip |
| TestCase.FailedBeforePrefix | testmanager/testcase.go:101-103 | Whether a file failed before position j depends only on the results before j |
| TestCase.FailedBeforeSnoc | testmanager/testcase.go:101-123 | One more result adds a failure exactly when it is one |
| TestCase.RunResultMeans | testmanager/testcase.go:85-128 | After the first failure every later test file is skipped and every other name ignored; a file is skipped only after a failure; until the first failure each file has its own outcome |
| TestCase.JoinAppend | testmanager/testcase.go:138 | Joining two non-empty lists is joining each and putting the separator between |
| TestCase.LastTwoIs | testmanager/testcase.go:138 | The last two parts joined by "." |
| TestCase.LastTwoIsSuffix | testmanager/testcase.go:133-138 | With at least three parts, "." followed by the extension is a suffix of the base name |
| TestCase.LastTwoSplits | testmanager/testcase.go:138 | The extension splits back into exactly two parts |
| TestCase.ExtIsLastTwoParts | testmanager/testcase.go:130-139 | ext is "" exactly when the base name has fewer than three dot-separated parts; otherwise it is a two-part suffix of the base name, after a "." |
| TestCase.AfterLastSlashOfPath | testmanager/testcase.go:131 | The last element of dir + "/" + b is b |
| TestCase.BaseOfPlainName | testmanager/testcase.go:131 | A non-empty name without "/" is its own base name |
| TestCase.ExtIgnoresDirectory | testmanager/testcase.go:131 | ext looks only at the base name: a directory prefix does not change it |
| TestCase.ExtOfTwoParts | testmanager/manager_test.go:20-23 | A base name with one dot has no extension |
| TestCase.ExtOfThreeParts | testmanager/testcase.go:138 | A base name with two dots has its last two parts as its extension |
| TestCase.ExtOfSingleExtension | testmanager/manager_test.go:20-23 | ext("foo.test") is "" |
| TestCase.ExtOfDoubleExtension | testmanager/manager_test.go:25-28 | ext("foo.gql.test") is "gql.test" |
| Watcher.SubTestStatus | internal/webui/ui/src/lib/watcher.svelte.ts:10-18 | A test is running exactly while its duration is 0, failed exactly when it has ended with an error list (an empty one included), done exactly when it has ended with none |
| Watcher.AnyWithExists | internal/webui/ui/src/lib/watcher.svelte.ts:30-33 | The front-to-back some() scan holds exactly when some test has the status |
| Watcher.FileStatusCases | internal/webui/ui/src/lib/watcher.svelte.ts:29-37 | A file has failed iff one of its tests has; is running iff none has failed and one is running; is done iff every test is done, a file without tests included; is never skipped |
| Watcher.SubTestsOfStatus | internal/webui/ui/src/lib/watcher.svelte.ts:99-136 | Copying an event's tests keeps their number, names and statuses |
| Watcher.Views | internal/webui/ui/src/lib/watcher.svelte.ts:106-126 | createFile over the init record's values builds one file per value, in order |
| Watcher.ViewNames | internal/webui/ui/src/lib/watcher.svelte.ts:131-133 | The names the find looks at are the files' names, in order |
| Watcher.FirstIndex | internal/webui/ui/src/lib/watcher.svelte.ts:131-133 | find by name returns the first position holding the name, and nothing exactly when no file has it |
| Watcher.UpsertPlaces | internal/webui/ui/src/lib/watcher.svelte.ts:129-142 | After a start or end event the first file of the name holds the event's file and every other file is unchanged; the list grows by one, at the end, exactly when no file had the name |
| Watcher.UpsertIdempotent | internal/webui/ui/src/lib/watcher.svelte.ts:129-142 | Repeating a start or an end event changes nothing more |
| Watcher.UpsertKeepsNamesUnique | internal/webui/ui/src/lib/watcher.svelte.ts:129-142 | Start and end events never introduce a second file of the same name |
| Watcher.InitSorted | internal/webui/ui/src/lib/watcher.svelte.ts:124-128 | An init event replaces the list, whatever it held, by its own files in name order |
| Watcher.InsertBy | internal/webui/ui/src/lib/watcher.svelte.ts:127 | Inserting adds exactly that element |
| Watcher.SortBy | internal/webui/ui/src/lib/watcher.svelte.ts:127 | The sort is a permutation of its input |
| Watcher.InsertSorted | internal/webui/ui/src/lib/watcher.svelte.ts:127 | Inserting into a list sorted by name keeps it sorted |
| Watcher.SortBySorted | internal/webui/ui/src/lib/watcher.svelte.ts:127 | The sort orders by name |
| Watcher.DistinctCounts | internal/webui/ui/src/lib/watcher.svelte.ts:118-139 | A list holds no object twice exactly when no object occurs more than once in its multiset |
| Watcher.DistinctPermutation | internal/webui/ui/src/lib/watcher.svelte.ts:125-127 | Sorting a list of distinct file objects keeps them distinct |
| Watcher.UiFile.constructor | internal/webui/ui/src/lib/watcher.svelte.ts:41-43 | A new file has its name, no tests and duration 0 |
| Watcher.UiFile.Status | internal/webui/ui/src/lib/watcher.svelte.ts:29-37 | A file's status is failed exactly when one of its tests has failed, and done exactly when all are done |
| Watcher.FileNames | internal/webui/ui/src/lib/watcher.svelte.ts:131-133 | The names of the file objects, in order |
| Watcher.Snapshot | internal/webui/ui/src/lib/watcher.svelte.ts:118 | The list's contents hold one view per file |
| Watcher.SnapshotAt | internal/webui/ui/src/lib/watcher.svelte.ts:118 | The view at a position is that file's contents |
| Watcher.SnapshotSnoc | internal/webui/ui/src/lib/watcher.svelte.ts:139 | Pushing a file adds its view at the end |
| Watcher.SnapshotNames | internal/webui/ui/src/lib/watcher.svelte.ts:131-133 | The views' names are the files' names |
| Watcher.SnapshotCons | internal/webui/ui/src/lib/watcher.svelte.ts:118 | The views of a file followed by a list are its view followed by theirs |
| Watcher.SnapshotInsert | internal/webui/ui/src/lib/watcher.svelte.ts:127 | Inserting a file by name and taking the views commute |
| Watcher.SnapshotSort | internal/webui/ui/src/lib/watcher.svelte.ts:127 | Sorting the files by name and taking the views commute |
| Watcher.CreateFile | internal/webui/ui/src/lib/watcher.svelte.ts:106-115 | createFile returns a new file holding the event's name, duration and tests, or no tests when the event has none |
| Watcher.Watcher.constructor | internal/webui/ui/src/lib/watcher.svelte.ts:117-120 | The watcher starts with no files |
| Watcher.Watcher.OnMessage | internal/webui/ui/src/lib/watcher.svelte.ts:121-167 | The list after any event is the reducer applied to the list before it: init replaces it sorted by name, start and end upsert, anything else is ignored; the file objects stay distinct |
| Watcher.Watcher.CreateFiles | internal/webui/ui/src/lib/watcher.svelte.ts:125-126 | Creates one fresh, distinct file per record value, holding exactly that value's view |
| Watcher.Watcher.UpdateAt | internal/webui/ui/src/lib/watcher.svelte.ts:134-136 | The found file is updated in place, its duration and tests replaced, and every other file is unchanged |
| Watcher.Watcher.Update | internal/webui/ui/src/lib/watcher.svelte.ts:129-142 | A start or end event updates the first file of the name in place or pushes a new file, exactly as Upsert says |
| Watcher.FileStatus | internal/webui/ui/src/lib/watcher.svelte.ts:29-37 | A file's status is never skipped, and a file without tests is done |
| Watcher.Upsert | internal/webui/ui/src/lib/watcher.svelte.ts:129-142 | A start or end event leaves the event's file in the list, which keeps its length or grows by one |
| Watcher.Reduce | internal/webui/ui/src/lib/watcher.svelte.ts:121-167 | Other events leave the list alone, start and end events grow it by at most one, and an init holds exactly one file per record value |
| WebReporter.Deliveries | internal/webui/reporter.go:140-147 | A broadcast sends the message once per registered listener, in registration order |
| WebReporter.Repeat | internal/webui/reporter.go:140-147 | A message repeated n times is n copies of it |
| WebReporter.InboxAppend | internal/webui/reporter.go:140-147 | What a listener receives from two runs of sends is what it receives from the first, then from the second |
| WebReporter.BroadcastInbox | internal/webui/reporter.go:140-147 | A broadcast reaches a listener once per registration of its channel |
| WebReporter.Without | internal/webui/reporter.go:171-178 | DeleteFunc leaves no occurrence of the channel and keeps every other channel |
| WebReporter.WithoutKeepsOthers | internal/webui/reporter.go:171-178 | Removing a channel keeps every other channel's number of registrations and leaves it none |
| WebReporter.WithoutAbsent | internal/webui/reporter.go:171-178 | Removing an absent channel changes nothing |
| WebReporter.AddThenRemove | internal/webui/reporter.go:160-178 | Adding a new channel and removing it again restores the listener list |
| WebReporter.Blocks | internal/webui/reporter.go:216-221 | The blocks of a callback's steps are test blocks only |
| WebReporter.StepSnoc | internal/webui/reporter.go:216-232 | One more file-level error adds no block and no send; one more test block adds a block |
| WebReporter.PrintedSnoc | internal/webui/reporter.go:55-58 | One more file-level error prints fmt.Printf of its format and arguments followed by a newline; one more test block prints nothing |
| WebReporter.TestSnoc | internal/webui/reporter.go:223-228 | One more test block adds exactly that test's sends |
| WebReporter.TestInbox | internal/webui/reporter.go:223-228 | Every listener sees a test's start_test first and its end_test last |
| WebReporter.OccursPositive | internal/webui/reporter.go:144-146 | A registered channel has at least one registration |
| WebReporter.AllRanSnoc | internal/webui/reporter.go:223-228 | The tests that ran, extended by one more run, match the blocks extended by its block |
| WebReporter.RanStep | internal/webui/reporter.go:219-228 | One more test block keeps RunSteps' record: each test matches its block and the sends are exactly the script's |
| WebReporter.Test.constructor | internal/webui/reporter.go:113-118 | A new test carries its file name, name, runner and cache, no errors and no duration |
| WebReporter.Test.Start | internal/webui/reporter.go:30-41 | Start clears the errors and broadcasts start_test carrying the test |
| WebReporter.Test.End | internal/webui/reporter.go:43-53 | End records the elapsed time and broadcasts end_test carrying the test |
| WebReporter.Test.AddError | internal/webui/reporter.go:55-72 | AddError on a test appends exactly one error holding the message alone (the format arguments are dropped) and broadcasts error carrying the test |
| WebReporter.File.constructor | internal/webui/reporter.go:193-196 | A new file carries its relative name and the cache, with no tests |
| WebReporter.File.Start | internal/webui/reporter.go:84-95 | Start clears the tests and broadcasts start carrying the file |
| WebReporter.File.End | internal/webui/reporter.go:97-107 | End records the elapsed time and broadcasts end carrying the file |
| WebReporter.File.AddTest | internal/webui/reporter.go:109-122 | AddTest appends one fresh test of this file and cache, and returns it |
| WebReporter.Cache.constructor | internal/webui/reporter.go:208-213 | A new cache has the directory prefix, no files, no listeners and has sent nothing |
| WebReporter.Cache.Broadcast | internal/webui/reporter.go:140-147 | Broadcast sends the message to every listener in order and changes nothing else |
| WebReporter.Cache.RemoveFile | internal/webui/reporter.go:149-158 | RemoveFile deletes the name from the files and then broadcasts remove with the name |
| WebReporter.Cache.AddListener | internal/webui/reporter.go:160-169 | A new listener is first sent init with the current files, then registered last |
| WebReporter.Cache.RemoveListener | internal/webui/reporter.go:171-178 | RemoveListener drops every registration of the channel and sends nothing |
| WebReporter.Cache.AddFile | internal/webui/reporter.go:180-200 | AddFile returns the file already there for the name, or registers a fresh file named by the path relative to the prefix; nothing is sent |
| WebReporter.SSEReporter.constructor | internal/webui/reporter.go:208-214 | NewSSEReporter has a fresh empty cache over the directory and no file or test |
| WebReporter.SSEReporter.Child | internal/webui/reporter.go:219-226 | The reporter handed to a callback has no cache, only the file and the test |
| WebReporter.SSEReporter.Error | internal/webui/reporter.go:230-232 | An error on a reporter with a test is recorded on it without its arguments and broadcast; without a test, fmt.Printf of the format and its arguments and a newline are printed instead |
| WebReporter.SSEReporter.RunTest | internal/webui/reporter.go:223-228 | RunTest adds one fresh test to the file, which ends with exactly the block's errors and the elapsed time, and sends start_test, one error per error and end_test |
| WebReporter.SSEReporter.RunBlock | internal/webui/reporter.go:226-232 | The block's errors are recorded on the test in order, each with its broadcast |
| WebReporter.SSEReporter.RunFile | internal/webui/reporter.go:216-221 | RunFile adds or reuses the file, restarts it, runs the callback's steps, ends it with the elapsed time; the file's tests are exactly the blocks' runs and the sends are start, the tests' sends and end |
| WebReporter.SSEReporter.RunSteps | internal/webui/reporter.go:219 | The callback's steps print the file-level errors and append one matching test per block, with exactly the blocks' sends |
| WebReporter.SSEReporter.Advance | internal/webui/reporter.go:219 | One more step keeps RunSteps' invariant |
| WebReporter.SSEReporter.AdvanceError | internal/webui/reporter.go:219-232 | One more file-level error keeps RunSteps' invariant |
| WebReporter.SSEReporter.AdvanceTest | internal/webui/reporter.go:219-228 | One more test block keeps RunSteps' invariant |
| WebReporter.SSEReporter.RunStep | internal/webui/reporter.go:219-232 | A file-level error prints its formatted message and a newline and sends nothing; a test block adds one fresh test that matches it, with its sends |

## Left out

- The Lua interpreter (`DoFile`, `CallByParam`, metatables, the stack) is not modelled. A call's stack values are a parameter. The effect of a test block or a delegated Go function is an input.
- go-cmp's internals and its "-want +got" text are not modelled. Only the verdict of the comparison under the path rules is.
- Two not-null comparers that apply to the same path make go-cmp panic as ambiguous. The model does not express that panic: such a path is compared once with the not-null comparer.
- Numbers: Lua and JSON numbers are float64. They are kept opaque as their printed text and their `int(f)` truncation, with no floating-point arithmetic.
- YAML/JSON decoding and the template renderer of the older format (`text/template` with sprig) are parameters that can fail. They are not interpreted.
- `writeConfig` (the reflection over a runner's configuration struct in `lua/generate.go`) and the reflection checks of `Manager.New` are not modelled. `GenerateSpec` is modelled for a nil config, for which `writeConfig` writes nothing.
- Go map iteration order is unspecified. Loops over a map pick their next key by a nondeterministic choice, and their contracts hold for every order.
- Locks, goroutines, the batcher's ticker and errgroup are not modelled. Operations run one at a time. A channel send appends to the listener's outbox. The blocking of Broadcast and of the batcher's flush is not modelled.
- The HTTP and SQL adapters of both harnesses are not modelled. They are tied to net/http and pgx, and their small state (REST send-once, GQL headers) depends on those types.
- File globbing and fsnotify in `lua/manager.go` are not modelled, nor is its skipping of the generated `zz_spec.lua`. `testmanager/manager.go`, `testmanager/context.go`, `lua/test_reporter.go`, the SSE HTTP server and the reporter interface are not part of this model either.
- `runTestCase`'s directory listing, its skip of sub-directories and its configuration loading are not modelled. `TestCase.Case.RunTestFiles` receives the file names, whether each file is readable, and the runner's outcome as parameters.
- Elapsed times (`time.Since`, durations) are parameters, and the UI keeps durations as integers.
- The terminal UI, the web UI's rendering, `highlighter.ts` and `format.ts` are not modelled. The example application under `example/` is not part of this model.
- Placeholders.TypeError: the calling function's name, which gopher-lua inserts into the message, is not modelled.
- Values.AsIndex: gopher-lua's `LVAsNumber` also reads hexadecimal (`0x1F`), decimal fractions and exponents, and tolerates surrounding spaces. The model reads only optionally signed decimal integers; any other string gives 0.
- Fuzzy.FuzzyMatch: JavaScript measures `length` and indexes in UTF-16 code units. The model counts characters, so a character above U+FFFF counts once instead of twice in the length bonus and the ratio.
- Strs.ToLower: `toLowerCase` is modelled on Latin-1 only (A to Z and U+00C0 to U+00DE except U+00D7). Other scripts' case mappings, including those that change the length (U+0130), are not.
- Strs.Quote: beyond Latin-1, `strconv.Quote` also writes the characters `unicode.IsPrint` rejects as `\u` or `\U` escapes. The model copies them unchanged.
- PubSub.Target: `json.Marshal` followed by `json.Unmarshal` turns every number into a float64. The model keeps an integer's digits, so an integer beyond 2^53, which float64 rounds, comes back exact. A nil slice, which Go encodes as null, has no separate value in the model.
- Suite.SavedReadsBack: `lua.LNumber` is a float64, so an integer beyond 2^53 does not read back exactly. The model keeps numbers as their text and their truncation, so the Int clause holds for every integer.
- Strs.Atoi: range errors for values beyond 64 bits are not modelled.
- SpecTypes.TypeString: the renderings of an enum, an array and a table literal are stated only by its definition. The contracts about it cover the basic codes, the panics and the concatenation of lists.
- WebReporter.SSEReporter.RemoveFile only delegates to `WebReporter.Cache.RemoveFile`, whose contract states the effect.
- Watcher.SortedBy: `localeCompare` is modelled as code-point order of the names. The order in which `Object.values` lists an init record's files is an input. EventSource and JSON parsing are not modelled. The start_test, end_test and error messages reach the reducer as events it ignores, as the commented-out handlers leave them. Console logging is not modelled.
- Version skew is modelled as the code stands. `lua/suite.go` registers `NotNull` and `Contains`, which `lua/spec/funcs.go` does not define; they are not modelled. The `Null` userdata it registers makes the conversion of the expected value panic (`Placeholders.NullMarkerPanics`). `lua/manager.go` calls `GenerateSpec` with one argument more than `lua/generate.go` declares; the model follows `lua/generate.go`. The expected preamble in `lua/generate_test.go` no longer matches `lua/generate.go`; the model follows `lua/generate.go`.
