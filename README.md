# auto-triager, modelled in Dafny

This project models the decision logic of the Grafana auto-triager. The
auto-triager is a set of Go commands and small Node scripts. Together they
label and route GitHub issues of grafana/grafana, using embeddings, a vector
collection and chat models. The network services (GitHub REST and GraphQL,
Gemini, OpenAI, the chromem vector database), the sqlite store and the file
system are not modelled as code. Each one becomes an oracle: a function-typed
parameter, or a field of a `Services` datatype, with an explicit failure
result. Collections that the programs mutate become `seq`s and `map`s. Loops
that the programs run become methods with loop invariants. Each method is
proved against a specification function, and the properties are proved about
that function.

One module per source file:

- `Vectorizer` is `pkg/cmd/vectorizer/vectorizer.go`. It is the incremental batch loop over the unprocessed rows of the issue table:
  - it takes at most 100 rows, in ascending id order;
  - it builds their content and embeds them;
  - it adds them to the collection, keyed by decimal id;
  - it saves through a callback;
  - only then does it mark the rows processed.
  The module also models the label flattener `parseLabels`.
- `Historian` is `pkg/historian/historian.go`. It grows a prefix of the 1000 most similar documents, 150 at a time, while the joined text counts below 900000 tokens.
- `Triager` is `pkg/cmd/triager/triager.go`. It covers:
  - the full vector rebuild, with chunks of 300 and the remainder;
  - the restore step;
  - flag validation.
- `FineTuner`, `Categorizer` and `Qualitizer` are the three dataset builders of `pkg/cmd/fine-tuner/`. They share three things:
  - the prompt types;
  - the running token budget in `TokenBudget`, which skips rows that cannot be priced and stops at the first overflow;
  - whitespace-free answers.
- `TriagerOpenAi` is `pkg/cmd/triager-openai/triager-openai.go`. It covers:
  - the bounded retry loop;
  - the allow-list filter;
  - the final label list;
  - flag validation.
- `AssignProject` is `pkg/scripts/batch-issue-assign-project/batch-issue-assign-project.go`. It covers:
  - the project-URL regular expression, as a leftmost, lazy matcher;
  - the memoised project node ids;
  - the confirmation, which reads one line of standard input per question;
  - the label-by-command loop;
  - the skip rule;
  - the pager.
- `LabelsMatcher` is `pkg/scripts/labels-matcher/label-project-matcher.go`. It counts distinct project URLs and sorts them by count, highest first.
- `LabelsToCommands` and `DedupeCommands` are `scripts/labels-to-commands.js` and `scripts/dedupe-commands-json.js`.
- `Scrapper` is `pkg/cmd/scrapper/scrapper.go`. It covers:
  - the page-file format;
  - the insert-or-replace of issues;
  - the page loop.
- `ActionTester` is `pkg/cmd/action-tester/action-tester.go`. It covers:
  - flag validation and the `org/repo` pattern, as an automaton proved equal to its plain statement;
  - the issue cache.
- `GitHub` is `pkg/github/github.go`. It covers:
  - status checks;
  - the GraphQL error rule;
  - the PEM block check;
  - the JWT claim window;
  - token extraction.
- Shared modules:
  - `Common` holds the shared types;
  - `Strings` holds Go's `strconv.Itoa`/`Atoi`, `strings.Index`, `Trim` and `ReplaceAll`;
  - `Seqs` defines filtering and its lemmas.

## Model

| member | source | states |
|---|---|---|
| Common.JoinLabelNames | pkg/cmd/vectorizer/vectorizer.go:204-207 | the label text is every label name, in order, each followed by ", " |
| Common.LabelNamesAppend | pkg/cmd/vectorizer/vectorizer.go:204-207 | the label text of two label lists one after the other is their two texts one after the other |
| Common.Collection.constructor | pkg/cmd/vectorizer/vectorizer.go:43 | the "issues" collection starts from the documents it already holds |
| Strings.Itoa | pkg/cmd/vectorizer/vectorizer.go:119 | the decimal form is non-empty, starts with a digit or '-', ends with a digit, and holds no space, newline, tab, quote or slash |
| Strings.NatToString | pkg/cmd/vectorizer/vectorizer.go:119 | a non-negative number prints as decimal digits without leading zeros |
| Strings.NatToStringValue | pkg/cmd/vectorizer/vectorizer.go:119 | the digits printed for a number denote that number |
| Strings.ItoaInjective | pkg/cmd/vectorizer/vectorizer.go:119 | distinct int64 ids get distinct document ids |
| Strings.ItoaHasNoWhitespace | pkg/cmd/fine-tuner/categorizer.go:157-164 | removing whitespace leaves a printed id unchanged |
| Strings.ParseUintFrom | pkg/cmd/scrapper/scrapper.go:61 | unsigned decimal parsing never yields more than 2^64-1 |
| Strings.ParseUint | pkg/cmd/scrapper/scrapper.go:61 | unsigned decimal parsing never yields more than 2^64-1 |
| Strings.ParseUintDigits | pkg/cmd/scrapper/scrapper.go:61 | a string of digits whose value fits in 64 bits parses to that value without error |
| Strings.Atoi | pkg/cmd/scrapper/scrapper.go:61 | the parsed value lies in the int64 range, and a syntax error yields 0 |
| Strings.AtoiItoa | pkg/cmd/scrapper/scrapper.go:61 | parsing the decimal form of any int64 gives it back without error |
| Strings.TrimLeft | pkg/cmd/scrapper/scrapper.go:61 | trimming leading characters leaves a suffix that does not start with the trimmed character |
| Strings.TrimRight | pkg/cmd/scrapper/scrapper.go:61 | trimming trailing characters leaves a prefix that does not end with the trimmed character |
| Strings.IndexFrom | pkg/github/github.go:468-470 | the result is -1 or an index where the pattern occurs, and the pattern occurs nowhere before it |
| Strings.RemoveChar | pkg/cmd/fine-tuner/categorizer.go:162-164 | no occurrence of the removed character is left |
| Strings.RemoveCharAppend | pkg/cmd/fine-tuner/categorizer.go:162-164 | removing a character from two texts one after the other removes it from each |
| Strings.RemoveWhitespace | pkg/cmd/fine-tuner/categorizer.go:162-164 | no whitespace is left in the result |
| Strings.RemoveWhitespaceAppend | pkg/cmd/fine-tuner/categorizer.go:162-164 | removing whitespace from two texts one after the other removes it from each |
| Strings.StripWhitespaceRemoves | pkg/cmd/fine-tuner/categorizer.go:162-164 | the three ReplaceAll passes (newline, tab, space) remove exactly the whitespace, keeping every other character in order |
| Strings.RemoveWhitespaceKeeps | pkg/cmd/fine-tuner/categorizer.go:162-164 | a text without whitespace is unchanged |
| Strings.RemoveWhitespaceDrops | pkg/cmd/fine-tuner/categorizer.go:162-164 | a text of whitespace only is removed entirely |
| Strings.RemoveWhitespaceStep | pkg/cmd/fine-tuner/categorizer.go:162-164 | a whitespace-free key is kept, the whitespace after it goes, and the rest is squeezed in turn |
| Strings.RemoveWhitespaceKey | pkg/cmd/fine-tuner/categorizer.go:162-164 | a whitespace-free key in front is kept as it is |
| Seqs.Filter | pkg/cmd/fine-tuner/categorizer.go:112-117 | the kept elements are a subset of the input that satisfy the test, and every input element satisfying it is kept |
| Seqs.FilterAppend | pkg/cmd/fine-tuner/categorizer.go:112-117 | filtering two lists one after the other filters each |
| Seqs.FilterStep | pkg/cmd/fine-tuner/categorizer.go:112-117 | one more element is kept exactly when it passes the test |
| Seqs.FilterMembers | pkg/cmd/fine-tuner/categorizer.go:112-117 | an element is kept if and only if it is in the input and passes the test |
| Seqs.KeepAllowed | pkg/cmd/fine-tuner/categorizer.go:112-117 | the append loop builds exactly the filtered list of the elements contained in the allowed list |
| Seqs.KeepAllowedExactly | pkg/cmd/fine-tuner/categorizer.go:112-117 | an element is kept if and only if it is in the input and allowed, and the kept list is a subsequence of the input |
| Seqs.FilterIsSubsequence | pkg/cmd/fine-tuner/categorizer.go:112-117 | the filtered list keeps the input's order |
| DedupeCommands.FindDuplicate | scripts/dedupe-commands-json.js:13-17 | the `some` scan as a loop: the same answer as the recursive scan, including the TypeError when a kept command has the name but no `addToProject` |
| DedupeCommands.DedupeAll | scripts/dedupe-commands-json.js:9-25 | the `forEach` as a loop computes exactly the recursive definition of the kept commands, or its error |
| DedupeCommands.DedupeErrorStays | scripts/dedupe-commands-json.js:11-25 | once a prefix of the commands has thrown, the whole script has thrown that same error |
| DedupeCommands.IsDuplicateSeen | scripts/dedupe-commands-json.js:13-17 | the scan answers true only when a kept "add to project" command has the same name and URL, and false only when none has |
| DedupeCommands.SeenAppend | scripts/dedupe-commands-json.js:13-17 | a (name, url) pair is seen in `a + b` exactly when it is seen in `a` or in `b` |
| DedupeCommands.FirstOccurrencesSeen | scripts/dedupe-commands-json.js:11-25 | the reference definition keeps a pair seen exactly when the input has it, and keeps only input commands |
| DedupeCommands.DedupeKeepsFirst | scripts/dedupe-commands-json.js:11-25 | when the script does not throw, its output is the reference definition: every plain command and the first command of each (name, url) pair |
| DedupeCommands.PlainCommandsKept | scripts/dedupe-commands-json.js:22-24 | every command without `addToProject` is kept |
| DedupeCommands.FirstOccurrencesUnique | scripts/dedupe-commands-json.js:11-25 | no two kept "add to project" commands share name and URL |
| DedupeCommands.FirstOccurrencesSubsequence | scripts/dedupe-commands-json.js:11-25 | the output is a subsequence of the input: commands are dropped, never reordered |
| DedupeCommands.DedupeIdempotent | scripts/dedupe-commands-json.js:11-25 | running the script on its own output gives the same output |
| DedupeCommands.DedupeNoThrow | scripts/dedupe-commands-json.js:12-17 | the script cannot throw when no plain command precedes an "add to project" command of the same name |
| DedupeCommands.IsDuplicateNoThrow | scripts/dedupe-commands-json.js:13-17 | the scan cannot throw when no kept plain command has the name looked for |
| DedupeCommands.PlainBeforeSameNameThrows | scripts/dedupe-commands-json.js:14-16 | a plain command followed by an "add to project" command of its name makes `item.addToProject.url` throw |
| DedupeCommands.GeneratedCommandsDedupe | scripts/labels-to-commands.js:15-26 | the output of labels-to-commands never makes the dedupe script throw |
| LabelsToCommands.EntryCommands | scripts/labels-to-commands.js:16-25 | one command per project of the entry, in order, each for the entry's label and that project |
| LabelsToCommands.TransformLabels | scripts/labels-to-commands.js:13-26 | the nested `forEach` loops build exactly the label-major command list |
| LabelsToCommands.TransformAppend | scripts/labels-to-commands.js:15-26 | the commands of `a + b` are those of `a` followed by those of `b` |
| LabelsToCommands.TransformCons | scripts/labels-to-commands.js:15-26 | the first entry's commands come first, then those of the rest |
| LabelsToCommands.TransformLength | scripts/labels-to-commands.js:15-26 | there are as many commands as projects over all entries |
| LabelsToCommands.TransformAt | scripts/labels-to-commands.js:15-26 | the command at position (projects before entry `i`) + `j` is for entry `i`'s label and its `j`-th project |
| LabelsToCommands.EmptyEntry | scripts/labels-to-commands.js:15-16 | an entry without projects contributes no command |
| LabelsToCommands.TransformAddsToProject | scripts/labels-to-commands.js:17-24 | every command is of type "label", action "addToProject", and carries a project URL |
| LabelsMatcher.FirstIndex | pkg/scripts/labels-matcher/label-project-matcher.go:156-165 | the position of the first card pointing at a URL: it points there and no earlier card does |
| LabelsMatcher.OccursInit | pkg/scripts/labels-matcher/label-project-matcher.go:156-158 | a URL occurs in the cards exactly when it occurs before the last card or on the last card |
| LabelsMatcher.TallyKeys | pkg/scripts/labels-matcher/label-project-matcher.go:153-172 | the map has an entry for a URL exactly when the URL is non-empty and some card points at it |
| LabelsMatcher.TallyCounts | pkg/scripts/labels-matcher/label-project-matcher.go:158-169 | the entry of a URL holds that URL and the number of cards pointing at it |
| LabelsMatcher.CountAbsent | pkg/scripts/labels-matcher/label-project-matcher.go:158-169 | a URL no card points at has a count of zero |
| LabelsMatcher.TallyNames | pkg/scripts/labels-matcher/label-project-matcher.go:160-165 | the entry of a URL keeps the project name of the first card pointing at it; later cards only increment |
| LabelsMatcher.SumCountsStep | pkg/scripts/labels-matcher/label-project-matcher.go:158-169 | one more card adds one to the count of exactly one of a list of distinct URLs, or to none |
| LabelsMatcher.SumCountsCovers | pkg/scripts/labels-matcher/label-project-matcher.go:156-172 | summed over distinct URLs that cover every non-empty one, the counts are the number of cards with a URL |
| LabelsMatcher.SumCountsEmpty | pkg/scripts/labels-matcher/label-project-matcher.go:153 | no cards count nothing |
| LabelsMatcher.UrlsOfIndex | pkg/scripts/labels-matcher/label-project-matcher.go:174-177 | the URL list of the cards has one URL per card, in order |
| LabelsMatcher.CounterSumCounts | pkg/scripts/labels-matcher/label-project-matcher.go:174-177 | cards that hold the counts of their URLs add up to the counts of those URLs |
| LabelsMatcher.InsertPermutes | pkg/scripts/labels-matcher/label-project-matcher.go:180-182 | inserting a card adds that card to the multiset and its counter to the total |
| LabelsMatcher.InsertMembers | pkg/scripts/labels-matcher/label-project-matcher.go:180-182 | after insertion the cards are the inserted one and the ones before |
| LabelsMatcher.InsertSorted | pkg/scripts/labels-matcher/label-project-matcher.go:180-182 | insertion into cards ordered by counter, highest first, keeps them ordered |
| LabelsMatcher.InsertDistinct | pkg/scripts/labels-matcher/label-project-matcher.go:180-182 | inserting a card with a new URL keeps the URLs distinct |
| LabelsMatcher.SortPermutes | pkg/scripts/labels-matcher/label-project-matcher.go:180-182 | the sort is a permutation: same multiset of cards, same total counter |
| LabelsMatcher.SortSorted | pkg/scripts/labels-matcher/label-project-matcher.go:180-182 | the sort orders the cards by counter, highest first |
| LabelsMatcher.SortDistinct | pkg/scripts/labels-matcher/label-project-matcher.go:180-182 | the sort keeps the URLs distinct |
| LabelsMatcher.SortCards | pkg/scripts/labels-matcher/label-project-matcher.go:179-182 | sort.Slice by Counter descending: a permutation of the cards, ordered highest first; tie order left open |
| LabelsMatcher.TallyStep | pkg/scripts/labels-matcher/label-project-matcher.go:157-170 | one card more in the loop is one AddCard more on the map |
| LabelsMatcher.ConcatStep | pkg/scripts/labels-matcher/label-project-matcher.go:156-157 | the cards up to issue i + 1 are those up to issue i followed by issue i's cards |
| LabelsMatcher.TallyCards | pkg/scripts/labels-matcher/label-project-matcher.go:153-172 | the two nested loops build exactly the map of the cards of all issues, in order |
| LabelsMatcher.Entries | pkg/scripts/labels-matcher/label-project-matcher.go:174-177 | the map's values in some order: each entry exactly once, with distinct URLs |
| LabelsMatcher.EntriesCount | pkg/scripts/labels-matcher/label-project-matcher.go:174-177 | the collected entries add up to the number of cards with a URL, and every such card has its entry |
| LabelsMatcher.MatchProjects | pkg/scripts/labels-matcher/label-project-matcher.go:153-182 | the printed cards: one per distinct non-empty URL, each with the count of cards pointing at it and the first card's name, highest count first, counts adding up to the cards with a URL |
| Historian.GrowShape | pkg/historian/historian.go:51-85 | from a batch-aligned start, the loop keeps a prefix of the texts, 150-aligned unless it is all of them, that fits when it grew; every aligned prefix up to it fits and the next candidate does not |
| Historian.RelevantPrefixShape | pkg/historian/historian.go:51-87 | the result is a prefix of the texts, 150-aligned unless it is all of them, under 900000 tokens when non-empty, and stops at the first candidate over the limit or not counted |
| Historian.GrowExtremes | pkg/historian/historian.go:56-85 | a counter that accepts every text keeps all results; one that accepts none keeps only what was already accepted |
| Historian.Contents | pkg/historian/historian.go:46-49 | the texts of the query results, one per document, in the collection's order |
| Historian.FindRelevantDocuments | pkg/historian/historian.go:18-89 | an embedding or query failure is an error; otherwise the loop returns exactly the growth prefix of the texts of the 1000 queried documents |
| Historian.GrowMonotone | pkg/historian/historian.go:70-77 | a token counter that accepts every candidate the other accepts never yields a shorter result |
| Historian.Lowered | pkg/historian/historian.go:16 | a candidate fits under the lowered counter exactly when it is counted below the limit raised by the given amount |
| Historian.LargerBudgetNotShorter | pkg/historian/historian.go:70-77 | raising the token limit never shortens the result, since the first overflow can only move later |
| Triager.FullChunks | pkg/cmd/triager/triager.go:129-138 | there is one complete chunk per 300 documents |
| Triager.ChunkFull | pkg/cmd/triager/triager.go:129-130 | a count between 1 and 300 is a multiple of 300 exactly when it is 300 |
| Triager.FullChunksAppend | pkg/cmd/triager/triager.go:121-138 | appending a document either extends the pending remainder or completes a chunk of 300 and empties the remainder |
| Triager.ChunksConcat | pkg/cmd/triager/triager.go:129-146 | the AddDocuments calls cut the documents into consecutive pieces that concatenate back to them: all of 300 but a last one of 1 to 299 |
| Triager.InsertAppend | pkg/cmd/triager/triager.go:129-146 | adding documents `a + b` leaves what adding `a` and then `b` leaves |
| Triager.FlushFailed | pkg/cmd/triager/triager.go:132-135 | once an AddDocuments call has failed, later chunks change nothing |
| Triager.FlushInserts | pkg/cmd/triager/triager.go:129-146 | successful chunked adds leave the collection that adding all their documents in order leaves |
| Triager.DocumentsNext | pkg/cmd/triager/triager.go:95-127 | one more row skips an empty label string, stops at a label string that does not parse, or appends the row's document |
| Triager.DocumentsStuck | pkg/cmd/triager/triager.go:109-112 | after a label parse failure, further rows change nothing |
| Triager.DocumentsPrefix | pkg/cmd/triager/triager.go:95-127 | the documents of a prefix of the rows begin the documents of all rows |
| Triager.FullChunksPrefix | pkg/cmd/triager/triager.go:129-138 | the complete chunks of a prefix begin the complete chunks of the whole |
| Triager.RebuildInsertsAll | pkg/cmd/triager/triager.go:87-159 | with every label string parsed and every chunk accepted, the rebuilt collection holds exactly the rows' documents added in order |
| Triager.DocumentsLast | pkg/cmd/triager/triager.go:105-127 | the last row adds no document when its label string is empty, and otherwise appends the document built from it and its parsed labels |
| Triager.IndexedKeys | pkg/cmd/triager/triager.go:105-127 | a key is in the rebuilt collection exactly when it is the decimal id of a row with labels |
| Triager.LabelledKeyLast | pkg/cmd/triager/triager.go:105-122 | the labelled ids of the rows are those of all rows but the last, plus the last row's when it has labels |
| Triager.IndexedValue | pkg/cmd/triager/triager.go:114-127 | under a labelled row's decimal id the collection holds the document with its title, label names and description |
| Triager.DocumentsIndexed | pkg/cmd/triager/triager.go:95-146 | one document per row with labels, under its decimal id, with that row's content, and no other key |
| Triager.ParseFailureIsFinal | pkg/cmd/triager/triager.go:108-112 | a label string that does not parse ends the rebuild with the chunks completed before it and a failure naming that row |
| Triager.ChunkFailureIsFinal | pkg/cmd/triager/triager.go:130-135 | a complete chunk the collection refuses ends the rebuild with what was added before it, whatever later rows hold |
| Triager.FlushNextChunk | pkg/cmd/triager/triager.go:129-138 | completing a chunk makes exactly one more AddDocuments call, with that chunk |
| Triager.FinishRebuild | pkg/cmd/triager/triager.go:140-159 | after the last row, a non-empty remainder is one more AddDocuments call, then the export runs only when everything succeeded |
| Triager.AddRow | pkg/cmd/triager/triager.go:96-138 | one pass of the row loop keeps the pending state or ends the rebuild with the failure the reference rebuild reports |
| Triager.AddRows | pkg/cmd/triager/triager.go:92-139 | the row loop over an emptied collection either ends with the reference failure or takes every row, holding the remainder still to add |
| Triager.UpdateVectorsDb | pkg/cmd/triager/triager.go:54-160 | the collection and outcome are exactly the reference rebuild of the old collection: no rows is an error; otherwise a fresh collection receives the chunks until a failure, then the export |
| Triager.Restore | pkg/cmd/triager/triager.go:162-171 | a missing vector file leaves the collection as it is, an unreadable one is an error, a readable export replaces the collection |
| Triager.RestoreExport | pkg/cmd/triager/triager.go:154-171 | restoring what the export wrote gives back the exported collection, whatever is in memory |
| Triager.MissingDatabaseAccepted | pkg/cmd/triager/triager.go:178-187 | as written, a database path that names a missing file passes validation |
| Triager.ValidateFlagsAccepts | pkg/cmd/triager/triager.go:173-197 | the corrected validation accepts exactly: a path when vectors are updated, an existing file when a path is given, a title and a description |
| Vectorizer.IssueStore.constructor | pkg/cmd/vectorizer/vectorizer.go:33 | the store holds the given rows of the issues table |
| Vectorizer.ParseLabels | pkg/cmd/vectorizer/vectorizer.go:194-211 | an empty or unparsable label string gives ""; otherwise the label names joined, each followed by ", " |
| Vectorizer.UnprocessedIndex | pkg/cmd/vectorizer/vectorizer.go:87 | every selected row is a row of the table with processed = 0 |
| Vectorizer.UnprocessedHas | pkg/cmd/vectorizer/vectorizer.go:87 | every row of the table with processed = 0 is among the selected rows |
| Vectorizer.UnprocessedAscending | pkg/cmd/vectorizer/vectorizer.go:87 | the rows with processed = 0 come in ascending id order |
| Vectorizer.Batch | pkg/cmd/vectorizer/vectorizer.go:86-89 | the batch is the first min(100, n) rows with processed = 0 |
| Vectorizer.BatchIsSmallestUnprocessed | pkg/cmd/vectorizer/vectorizer.go:86-89 | a batch holds at most 100 unprocessed rows of the table, ascending, and every unprocessed row left out has a larger id than every row taken |
| Vectorizer.BatchRowsUnprocessed | pkg/cmd/vectorizer/vectorizer.go:87 | every batch row is a row of the table with processed = 0 |
| Vectorizer.BatchAscending | pkg/cmd/vectorizer/vectorizer.go:87 | the batch is ordered by ascending id |
| Vectorizer.BatchSmallest | pkg/cmd/vectorizer/vectorizer.go:87-88 | an unprocessed row not in the batch has a larger id than every batch row |
| Vectorizer.Slots | pkg/cmd/vectorizer/vectorizer.go:98-127 | the batchItems buffer always has 100 slots |
| Vectorizer.MarkProcessed | pkg/cmd/vectorizer/vectorizer.go:175-177 | the UPDATE sets processed on exactly the rows whose id is listed, and changes nothing else |
| Vectorizer.CountInAppend | pkg/cmd/vectorizer/vectorizer.go:175-177 | the marked rows of `a + b` are those of `a` plus those of `b` |
| Vectorizer.CountInAll | pkg/cmd/vectorizer/vectorizer.go:175-177 | when every row's id is listed, all of them are marked |
| Vectorizer.CountInNone | pkg/cmd/vectorizer/vectorizer.go:175-177 | when no row's id is listed, none is marked |
| Vectorizer.MarkCount | pkg/cmd/vectorizer/vectorizer.go:175-177 | after the UPDATE, the unprocessed rows are the old ones less those whose id was listed |
| Vectorizer.LaterNotInBatch | pkg/cmd/vectorizer/vectorizer.go:87-88 | in ascending rows, a row after the first n is not among their ids |
| Vectorizer.MarkBatchCount | pkg/cmd/vectorizer/vectorizer.go:86-177 | marking a batch removes exactly its rows from the unprocessed ones |
| Vectorizer.MarkKeepsWellFormed | pkg/cmd/vectorizer/vectorizer.go:175-177 | the UPDATE keeps the ids 64-bit and ascending |
| Vectorizer.InBatchById | pkg/cmd/vectorizer/vectorizer.go:119-176 | a row's id is among the batch ids exactly when the row is in the batch: ids are unique |
| Vectorizer.RunCommitted | pkg/cmd/vectorizer/vectorizer.go:68-189 | a committed batch strictly shrinks the unprocessed rows and is one batch more than the run from the state it leaves |
| Vectorizer.StepCommittedRows | pkg/cmd/vectorizer/vectorizer.go:169-177 | a committed batch leaves the table with exactly the batch's rows marked |
| Vectorizer.RunDone | pkg/cmd/vectorizer/vectorizer.go:56-59 | with no unprocessed row the run ends at once, unchanged |
| Vectorizer.RunStopped | pkg/cmd/vectorizer/vectorizer.go:132-180 | a batch that fails, or whose mark update fails, ends the run after that batch, as an error or as Livelock |
| Vectorizer.StepFlags | pkg/cmd/vectorizer/vectorizer.go:68-189 | every outcome but a commit leaves the table as it was; a commit marks exactly the batch's rows and changes no other row |
| Vectorizer.AddFromUnion | pkg/cmd/vectorizer/vectorizer.go:146-167 | the overwrite-by-id insertions of a batch do not depend on what the collection held |
| Vectorizer.UpdateThenUnion | pkg/cmd/vectorizer/vectorizer.go:149-157 | one update followed by a union is a union with the update applied first |
| Vectorizer.AddFromTwice | pkg/cmd/vectorizer/vectorizer.go:146-167 | adding the same batch twice leaves what adding it once left |
| Vectorizer.MarkFailureRepeats | pkg/cmd/vectorizer/vectorizer.go:175-180 | a failed mark update is a fixed point: the next iteration selects the same rows and ends the same way |
| Vectorizer.RetryAfterFailure | pkg/cmd/vectorizer/vectorizer.go:132-180 | after an embedding, save or mark failure, re-running with any save and mark behaviour ends as running from before the failed batch |
| Vectorizer.RunSameStep | pkg/cmd/vectorizer/vectorizer.go:68-189 | two states with the same table and the same next step run alike |
| Vectorizer.RetryStep | pkg/cmd/vectorizer/vectorizer.go:132-180 | a failed batch leaves the table as it was, so a retry takes the same step the failed batch would take |
| Vectorizer.PersistRowsOnly | pkg/cmd/vectorizer/vectorizer.go:169-180 | what follows the insertions depends on the table, not on the documents before them |
| Vectorizer.RunFinishedIsQuiescent | pkg/cmd/vectorizer/vectorizer.go:48-59 | once a run has finished, running again changes nothing and starts no batch |
| Vectorizer.AddFromSucceeds | pkg/cmd/vectorizer/vectorizer.go:146-167 | when AddDocument never fails and there are no more embeddings than slots, the insertions succeed |
| Vectorizer.AddFromFrame | pkg/cmd/vectorizer/vectorizer.go:146-167 | a key no remaining slot carries keeps its document |
| Vectorizer.AddFromLast | pkg/cmd/vectorizer/vectorizer.go:146-167 | a successful batch stores slot j's document, paired by position with embedding j, unless a later slot has the same key |
| Vectorizer.StepReliable | pkg/cmd/vectorizer/vectorizer.go:86-180 | with reliable services a batch is committed: its documents added and its rows marked |
| Vectorizer.RunReliable | pkg/cmd/vectorizer/vectorizer.go:61-189 | with reliable services the run finishes after ceil(n / 100) batches and leaves no row unprocessed |
| Vectorizer.RunReliableFrame | pkg/cmd/vectorizer/vectorizer.go:146-167 | a reliable run leaves alone every document no unprocessed row maps to |
| Vectorizer.RunReliableEmbeds | pkg/cmd/vectorizer/vectorizer.go:112-167 | a reliable run stores, for every row that was unprocessed, a document under its decimal id with its content, labels and an embedding |
| Vectorizer.EmbedsInBatch | pkg/cmd/vectorizer/vectorizer.go:146-167 | a row of the current batch has its document added now and never replaced by later batches |
| Vectorizer.BatchDocStored | pkg/cmd/vectorizer/vectorizer.go:146-157 | the batch step stores a batch row's document, with the embedding at its position, under its key |
| Vectorizer.OutsideBatch | pkg/cmd/vectorizer/vectorizer.go:87-88 | an unprocessed row past the first 100 is not in the batch |
| Vectorizer.SlotKeysDistinct | pkg/cmd/vectorizer/vectorizer.go:121-157 | two slots of a batch are stored under different keys |
| Vectorizer.MarkedKeyGone | pkg/cmd/vectorizer/vectorizer.go:150-176 | once a row is marked, no row left unprocessed shares its key |
| Vectorizer.BuildBatch | pkg/cmd/vectorizer/vectorizer.go:96-128 | the row loop fills the 100-slot buffer in place with the batch's items and zero slots after them, and appends each row's id and embedding request in order |
| Vectorizer.BatchPrefixStep | pkg/cmd/vectorizer/vectorizer.go:118-119 | one more row appends its id text and its embedding request |
| Vectorizer.AddEmbeddings | pkg/cmd/vectorizer/vectorizer.go:146-167 | the AddDocument loop leaves the collection and outcome of the reference insertions over the buffer's slots |
| Vectorizer.ProcessBatch | pkg/cmd/vectorizer/vectorizer.go:86-188 | one iteration on a table with unprocessed rows leaves exactly the state and outcome of the reference step |
| Vectorizer.VectorizeIssues | pkg/cmd/vectorizer/vectorizer.go:30-192 | the table, collection, outcome and batch count are exactly those of the reference run from the old state |
| TriagerOpenAi.ZeroFloatIdPasses | pkg/cmd/triager-openai/triager-openai.go:121 | as written, a zero id decoded from the model's JSON (a float64 in an interface) is not rejected |
| TriagerOpenAi.IdRejectedCatchesZero | pkg/cmd/triager-openai/triager-openai.go:121 | the intended check rejects a decoded zero id and agrees with the written check on every other kind of value |
| TriagerOpenAi.CategorizeIssue | pkg/cmd/triager-openai/triager-openai.go:116-156 | the retry loop ends with exactly the reference outcome and makes at most `retries` calls |
| TriagerOpenAi.EarlyExitIsGood | pkg/cmd/triager-openai/triager-openai.go:119-152 | the loop ends with retries left only on a good answer: an accepted id and at least one category from the file, exactly those kept |
| TriagerOpenAi.ExhaustedKeepsLast | pkg/cmd/triager-openai/triager-openai.go:119-152 | when the retries run out, the error and category are the last attempt's: its error and an empty category, or its unfiltered answer |
| TriagerOpenAi.CategorizeFatal | pkg/cmd/triager-openai/triager-openai.go:116-156 | the command exits with "Error categorizing issue" exactly when every retry was used and the last attempt failed; a last answer that did not pass is printed as it came |
| TriagerOpenAi.ZeroIdTakenAsWritten | pkg/cmd/triager-openai/triager-openai.go:119-152 | with the written check a zero id is taken on the first attempt; the intended check asks again and takes the second answer |
| TriagerOpenAi.KeepOne | pkg/cmd/triager-openai/triager-openai.go:131-138 | a single category found in the file is kept |
| TriagerOpenAi.LabelsToAdd | pkg/cmd/triager-openai/triager-openai.go:163-166 | the labels sent are the kept categories, then the types, then "automated-triage" |
| TriagerOpenAi.ValidateFlagsOrder | pkg/cmd/triager-openai/triager-openai.go:183-197 | the flags pass exactly when the issue id, the OpenAI key and the GitHub token are all given, and the first missing one names the error |
| TriagerOpenAi.Triage | pkg/cmd/triager-openai/triager-openai.go:95-172 | an empty title exits; otherwise the command prints the category of the retry loop run with the given id check, or exits with its error, and with addLabels sends the labels and exits on a GitHub error; the code as written is the instance with `IdRejectedAsWritten`, which takes an answer whose id is a decoded 0 |
| TokenBudget.Take | pkg/cmd/fine-tuner/fine-tuner.go:199-218 | the selection is the priced prompts of the candidates consumed, their tokens added to the running total, within the budget; it stops only at a prompt that would carry the total past it |
| TokenBudget.TakeStart | pkg/cmd/fine-tuner/fine-tuner.go:150-152 | the loop starts with nothing accepted and no tokens counted |
| TokenBudget.TakeSkip | pkg/cmd/fine-tuner/fine-tuner.go:170-207 | a skipped row changes neither the prompts nor the total |
| TokenBudget.TakeAccept | pkg/cmd/fine-tuner/fine-tuner.go:213-217 | a prompt within the budget is counted and appended |
| TokenBudget.TakeStop | pkg/cmd/fine-tuner/fine-tuner.go:209-212 | a prompt that would carry the total past the budget ends the loop before it |
| TokenBudget.TakeDone | pkg/cmd/fine-tuner/fine-tuner.go:154-218 | with every row consumed, the loop has ended without an overflow |
| TokenBudget.Consume | pkg/cmd/fine-tuner/fine-tuner.go:199-217 | the budget check of one row: skip, stop on overflow, or count and append |
| TokenBudget.ItemSource | pkg/cmd/fine-tuner/fine-tuner.go:217 | every accepted prompt is the prompt of some priced row |
| FineTuner.QuoteAllAppend | pkg/cmd/fine-tuner/fine-tuner.go:249-255 | the quoted labels of `a + b` are those of `a` followed by those of `b` |
| FineTuner.QuoteInjective | pkg/cmd/fine-tuner/fine-tuner.go:251-253 | two labels quote alike exactly when they are equal |
| FineTuner.AreaIsNotType | pkg/cmd/fine-tuner/fine-tuner.go:250-254 | no label is both an `area/` and a `type/` label, so the first branch wins |
| FineTuner.LabelsStep | pkg/cmd/fine-tuner/fine-tuner.go:249-255 | one more parsed label extends the list of its kind by that label, quoted |
| FineTuner.GetLabelsFromIssueLabels | pkg/cmd/fine-tuner/fine-tuner.go:237-260 | an empty label string gives two empty lists, an unparsable one an error, otherwise the `area/` and the `type/` labels, quoted, in order |
| FineTuner.QuotedKind | pkg/cmd/fine-tuner/fine-tuner.go:249-255 | the list of one kind holds, quoted, exactly the parsed labels of that kind |
| FineTuner.LabelsPartition | pkg/cmd/fine-tuner/fine-tuner.go:237-260 | the two lists hold, quoted, exactly the parsed `area/` and `type/` labels, and no entry is in both |
| FineTuner.Answer | pkg/cmd/fine-tuner/fine-tuner.go:180-188 | the answer message has no newline, tab or space left |
| FineTuner.AnswerKeys | pkg/cmd/fine-tuner/fine-tuner.go:186-188 | stripping leaves the JSON punctuation of the answer unchanged |
| FineTuner.IdName | pkg/cmd/fine-tuner/fine-tuner.go:181 | stripping leaves the `"id":` key unchanged |
| FineTuner.AreaName | pkg/cmd/fine-tuner/fine-tuner.go:182 | stripping leaves the `"areaLabel":` key unchanged |
| FineTuner.TypeName | pkg/cmd/fine-tuner/fine-tuner.go:183 | stripping leaves the `"typeLabel":` key unchanged |
| FineTuner.AnswerSpaces | pkg/cmd/fine-tuner/fine-tuner.go:180-188 | stripping removes the indentation and the spaces of the literal completely |
| FineTuner.AnswerPieces | pkg/cmd/fine-tuner/fine-tuner.go:180-188 | the stripped answer is the stripped pieces of the literal, in order |
| FineTuner.AnswerCompact | pkg/cmd/fine-tuner/fine-tuner.go:180-188 | the answer is the compact JSON object with the id, the area labels and the type labels, the labels stripped of whitespace too |
| FineTuner.MergePieces | pkg/cmd/fine-tuner/fine-tuner.go:180-184 | the answer's pieces concatenate to the compact object text |
| FineTuner.BuildCandidate | pkg/cmd/fine-tuner/fine-tuner.go:155-207 | the loop body before the budget check: rows whose labels fail or are empty, and prompts that fail to marshal or encode, are skipped; otherwise the system, user and answer prompt with its token count |
| FineTuner.SelectPrompts | pkg/cmd/fine-tuner/fine-tuner.go:150-218 | the row loop keeps exactly the budget selection over the rows' candidates, totals at most 100000 tokens, and counts the prompts kept |
| FineTuner.GenerateDataset | pkg/cmd/fine-tuner/fine-tuner.go:103-218 | with the system prompt listing the types and areas, the dataset is the budget selection over the rows, within 100000 tokens |
| FineTuner.AcceptedPrompt | pkg/cmd/fine-tuner/fine-tuner.go:170-217 | every kept prompt comes from a row whose labels parse with some area or type, and is that row's system, user and answer messages |
| FineTuner.GetCommand | pkg/cmd/fine-tuner/fine-tuner.go:279-290 | the command is accepted exactly when the first argument is "gen-dataset" |
| FineTuner.ValidateFlagsAccepts | pkg/cmd/fine-tuner/fine-tuner.go:292-320 | the flags pass exactly when the database and ids files exist and the key is set; a missing database path is reported first |
| Categorizer.CategoryIsNotType | pkg/cmd/fine-tuner/categorizer.go:238-244 | an `area/` or `datasource/` label never also counts as a type |
| Categorizer.GetLabelsFromIssueLabels | pkg/cmd/fine-tuner/categorizer.go:226-249 | an empty label string gives two empty lists, an unparsable one an error, otherwise the `area/` or `datasource/` labels and the `type/` labels, unquoted, in order |
| Categorizer.CategoryLabelsPartition | pkg/cmd/fine-tuner/categorizer.go:226-249 | the two lists hold exactly the parsed labels of their kind, in parsed order, and share no label |
| Categorizer.EligibleLabels | pkg/cmd/fine-tuner/categorizer.go:106-131 | a row trains on equally many, at least one each, allowed category and type labels, each a parsed label of its kind listed in its file |
| Categorizer.StringArrayToJsonArray | pkg/cmd/fine-tuner/categorizer.go:251-260 | no labels give the empty text; otherwise the labels, each quoted, joined by commas in brackets |
| Categorizer.ReadString | pkg/cmd/fine-tuner/categorizer.go:251-260 | reading a quoted string consumes input, and the text read holds no quote, backslash or control character: the reader knows no JSON escapes and refuses them |
| Categorizer.ReadQuoted | pkg/cmd/fine-tuner/categorizer.go:257 | a quoted label free of quotes, backslashes and control characters reads back as that label, leaving what follows |
| Categorizer.DecodeJoin | pkg/cmd/fine-tuner/categorizer.go:255-259 | the comma-joined quoted labels read back as the labels |
| Categorizer.JsonArrayRoundTrip | pkg/cmd/fine-tuner/categorizer.go:251-260 | labels free of quotes, backslashes and control characters, which JSON reads as written, read back exactly from their array through an escape-free reader |
| Categorizer.BackslashNotRoundTripped | pkg/cmd/fine-tuner/categorizer.go:257 | a label with a backslash is written unescaped, so its array is not read back as the label: `["a\b"]` is an escape to JSON, and the escape-free reader refuses it |
| Categorizer.JsonArrayEmpty | pkg/cmd/fine-tuner/categorizer.go:252-254 | only the empty list gives the empty text |
| Categorizer.Response | pkg/cmd/fine-tuner/categorizer.go:156-164 | the assistant answer has no newline, tab or space left |
| Categorizer.ResponseKeys | pkg/cmd/fine-tuner/categorizer.go:162-164 | stripping leaves the braces and commas of the answer unchanged |
| Categorizer.ResponseSpaces | pkg/cmd/fine-tuner/categorizer.go:156-164 | stripping removes the indentation and the spaces of the literal completely |
| Categorizer.ResponseNames | pkg/cmd/fine-tuner/categorizer.go:157-158 | stripping leaves the `"id":` and `"categoryLabel":` keys unchanged |
| Categorizer.TypeLabelName | pkg/cmd/fine-tuner/categorizer.go:159 | stripping leaves the `"typeLabel":` key unchanged |
| Categorizer.ResponsePieces | pkg/cmd/fine-tuner/categorizer.go:156-164 | the stripped answer is the stripped pieces of the literal, in order |
| Categorizer.ResponseEnd | pkg/cmd/fine-tuner/categorizer.go:159-160 | the closing indentation strips to the closing brace |
| Categorizer.MergeResponse | pkg/cmd/fine-tuner/categorizer.go:156-160 | the answer's pieces concatenate to the compact object text |
| Categorizer.ResponseCompact | pkg/cmd/fine-tuner/categorizer.go:156-164 | the assistant answer is the compact object with the id, the category array and the type array, the arrays stripped of whitespace too |
| Categorizer.RecordsAppend | pkg/cmd/fine-tuner/categorizer.go:154 | the side-file records of `a + b` are those of `a` followed by those of `b` |
| Categorizer.RecordsOne | pkg/cmd/fine-tuner/categorizer.go:154 | one row contributes its own record, if it has one |
| Categorizer.RecordsStep | pkg/cmd/fine-tuner/categorizer.go:154 | one more row appends its record, if it has one |
| Categorizer.RowLabels | pkg/cmd/fine-tuner/categorizer.go:106-131 | the label part of the loop body: parse, keep the labels the files list, skip on none or on unequal counts |
| Categorizer.ProcessRow | pkg/cmd/fine-tuner/categorizer.go:81-183 | the loop body up to the budget check yields the row's side-file record and its candidate prompt |
| Categorizer.AddRecord | pkg/cmd/fine-tuner/categorizer.go:133-154 | an eligible row's record is appended, and an ineligible row adds none |
| Categorizer.SelectPrompts | pkg/cmd/fine-tuner/categorizer.go:74-194 | the row loop keeps exactly the budget selection of prompts, at most 100000 tokens, and the records of every row read, the overflowing one included |
| Categorizer.RecordsReached | pkg/cmd/fine-tuner/categorizer.go:80-194 | the records gathered when the loop ends are those of the rows it read |
| Categorizer.PricedHasRecord | pkg/cmd/fine-tuner/categorizer.go:128-154 | a prompt that reaches the budget check comes from a row that has its record |
| Categorizer.RecordsCoverPrompts | pkg/cmd/fine-tuner/categorizer.go:128-193 | there are at least as many records as priced prompts among the same rows |
| Categorizer.CandidatesTail | pkg/cmd/fine-tuner/categorizer.go:80-194 | the candidates of the rows are the first row's followed by those of the rest |
| Categorizer.ItemsHead | pkg/cmd/fine-tuner/categorizer.go:193 | the priced prompts are the first candidate's, if priced, then those of the rest |
| Categorizer.RecordsHead | pkg/cmd/fine-tuner/categorizer.go:154 | the records are the first row's, if any, then those of the rest |
| Categorizer.PricedRowRecord | pkg/cmd/fine-tuner/categorizer.go:128-154 | a row whose prompt is priced has exactly one record |
| Categorizer.CandidatesPrefix | pkg/cmd/fine-tuner/categorizer.go:80-194 | the candidates of a prefix of the rows are a prefix of the candidates |
| Categorizer.RecordsCoverSelection | pkg/cmd/fine-tuner/categorizer.go:128-193 | there are at least as many records of the rows read as prompts kept |
| Categorizer.OverflowHasRecord | pkg/cmd/fine-tuner/categorizer.go:154-187 | when the loop stops on an overflow, the overflowing row's record was already appended |
| Categorizer.RecordsPrefixGrows | pkg/cmd/fine-tuner/categorizer.go:154 | more rows read never means fewer records |
| Categorizer.WriteJsonLines | pkg/cmd/fine-tuner/categorizer.go:199-206 | the output loop builds exactly the JSON-lines text, or the first marshal error |
| Categorizer.AfterNothing | pkg/cmd/fine-tuner/categorizer.go:199 | an empty prefix changes no output |
| Categorizer.AfterAfter | pkg/cmd/fine-tuner/categorizer.go:205 | writing `b` and then `a` in front is writing `a + b` |
| Categorizer.JsonLinesAppend | pkg/cmd/fine-tuner/categorizer.go:200-206 | the output of `a + b` is the output of `a` followed by that of `b`, and an error in `a` is final |
| Categorizer.JsonLinesLines | pkg/cmd/fine-tuner/categorizer.go:199-206 | the output exists exactly when every prompt can be marshalled, and is then each prompt's JSON followed by a newline, in order |
| Categorizer.GenerateCategorizerDataset | pkg/cmd/fine-tuner/categorizer.go:74-206 | the output is the JSON lines of the budget selection, and the records are those of the rows read |
| Qualitizer.Answer | pkg/cmd/fine-tuner/qualitizer.go:126-133 | the assistant answer has no newline, tab or space left |
| Qualitizer.AnswerKeys | pkg/cmd/fine-tuner/qualitizer.go:131-133 | stripping leaves the braces, the comma and the `"id":` key unchanged |
| Qualitizer.VerdictName | pkg/cmd/fine-tuner/qualitizer.go:128 | stripping leaves the `"isCategorizable":` key unchanged |
| Qualitizer.AnswerSpaces | pkg/cmd/fine-tuner/qualitizer.go:126-133 | stripping removes the indentation and the spaces of the literal completely |
| Qualitizer.AnswerEnd | pkg/cmd/fine-tuner/qualitizer.go:128-129 | the closing indentation strips to the closing brace |
| Qualitizer.VerdictHasNoWhitespace | pkg/cmd/fine-tuner/qualitizer.go:128 | the verdict text `true` or `false` survives stripping |
| Qualitizer.AnswerPieces | pkg/cmd/fine-tuner/qualitizer.go:126-133 | the stripped answer is the stripped pieces of the literal, in order |
| Qualitizer.MergeAnswer | pkg/cmd/fine-tuner/qualitizer.go:126-129 | the answer's pieces concatenate to the compact object text |
| Qualitizer.AnswerCompact | pkg/cmd/fine-tuner/qualitizer.go:126-133 | the answer is the compact object `{"id":<id>,"isCategorizable":<true or false>}` |
| Qualitizer.BuildCandidate | pkg/cmd/fine-tuner/qualitizer.go:107-153 | the loop body before the budget check: the system, user and assistant prompt with its token count, or skipped when it cannot be marshalled or encoded |
| Qualitizer.GeneratePrompts | pkg/cmd/fine-tuner/qualitizer.go:81-170 | generatePrompts returns exactly the budget selection over the rows' candidates for its own budget |
| Qualitizer.SelectedWithinBudget | pkg/cmd/fine-tuner/qualitizer.go:155-160 | the tokens of the kept prompts are those of the candidates consumed and stay within the budget |
| Qualitizer.SelectedPrompt | pkg/cmd/fine-tuner/qualitizer.go:112-163 | every kept prompt is some row's system, user and assistant messages with the call's verdict |
| Qualitizer.PricedPrompt | pkg/cmd/fine-tuner/qualitizer.go:143-153 | a priced candidate carries its row's prompt |
| Qualitizer.VerdictOfAnswer | pkg/cmd/fine-tuner/qualitizer.go:126-141 | a prompt's answer ends in `true}` exactly when the call's issues are categorizable |
| Qualitizer.GenerateQualitizerDataset | pkg/cmd/fine-tuner/qualitizer.go:41-70 | the dataset is the categorizable selection followed by the missing-info one, each under half the budget, written as JSON lines |
| Qualitizer.DatasetWithinBudget | pkg/cmd/fine-tuner/qualitizer.go:47-61 | the two halves together stay within 100000 tokens |
| Qualitizer.CategorizableFirst | pkg/cmd/fine-tuner/qualitizer.go:47-70 | every categorizable prompt comes before every missing-info one, and the file is the first call's lines followed by the second's |
| Scrapper.StartPage | pkg/cmd/scrapper/scrapper.go:55-67 | a missing file or unparsable text starts at page 0, and the start page always lies in the int64 range |
| Scrapper.TrimNewline | pkg/cmd/scrapper/scrapper.go:61 | trimming newlines from the text setStartPage writes leaves the bare decimal number |
| Scrapper.StartPageRoundTrip | pkg/cmd/scrapper/scrapper.go:69-74 | the page setStartPage writes is the page getStartPage reads back |
| Scrapper.StartPageBlank | pkg/cmd/scrapper/scrapper.go:55-67 | an unreadable page file and one of blank lines both start at page 0 |
| Scrapper.BlankTrims | pkg/cmd/scrapper/scrapper.go:61 | a text of newlines only trims to the empty text |
| Scrapper.SaveIssueAsWrittenFails | pkg/cmd/scrapper/scrapper.go:141-144 | the INSERT as written, six columns and five placeholders, is refused for every issue |
| Scrapper.SaveIssueReplaces | pkg/cmd/scrapper/scrapper.go:141-144 | with one placeholder per column the number's row is inserted or replaced, always unprocessed, and no other row changes |
| Scrapper.SavePageIntendedOk | pkg/cmd/scrapper/scrapper.go:116-125 | with the intended statement no save on a page fails |
| Scrapper.SavePageIntendedStep | pkg/cmd/scrapper/scrapper.go:116-125 | the page's last issue overwrites its number's row unless it is a pull request |
| Scrapper.IssueNumbersStep | pkg/cmd/scrapper/scrapper.go:116-125 | the numbers a page saves grow by the last issue's number exactly when it is not a pull request |
| Scrapper.SavePageIntendedKeys | pkg/cmd/scrapper/scrapper.go:116-125 | a page saves every issue that is not a pull request and nothing else; other rows are unchanged |
| Scrapper.SavePageIntendedRows | pkg/cmd/scrapper/scrapper.go:116-125 | each saved number holds the row of the last non-pull-request issue on the page with that number |
| Scrapper.SavePageAsWritten | pkg/cmd/scrapper/scrapper.go:116-125 | with the statement as written a page changes no row, and fails exactly when it holds an issue that is not a pull request |
| Scrapper.SavePageFailStays | pkg/cmd/scrapper/scrapper.go:146-148 | once a save on a page is fatal, the rest of the page is not processed |
| Scrapper.ScrapeStopsAtEmptyPage | pkg/cmd/scrapper/scrapper.go:76-133 | a finished scrape stopped at the first empty page from the start, every earlier page was fetched and non-empty, and the page file names the page it stopped at, or is untouched when that is the start page |
| Scrapper.ScrapeIntendedFatal | pkg/cmd/scrapper/scrapper.go:76-133 | with the intended statement a fatal end comes only from a page that could not be fetched or decoded |
| Scrapper.ScrapeSavesOnlyIssues | pkg/cmd/scrapper/scrapper.go:76-133 | every row a scrape adds is keyed by an issue, not a pull request, of a page it read |
| Scrapper.ScrapeAsWrittenSavesNothing | pkg/cmd/scrapper/scrapper.go:76-133 | with the statement as written no scrape changes the table |
| Scrapper.ScrapeAsWrittenFatal | pkg/cmd/scrapper/scrapper.go:76-133 | with the statement as written the first page holding an issue that is not a pull request is fatal, with the table untouched; the page file is untouched when that is the start page, and otherwise names that page, as the pages of pull requests before it were got past |
| Scrapper.Scraper.SaveIssues | pkg/cmd/scrapper/scrapper.go:116-125 | the loop over a page leaves the table and the outcome that the page-save function gives, and does not touch the page file |
| Scrapper.Scraper.ScrapeIssues | pkg/cmd/scrapper/scrapper.go:76-133 | the page loop leaves the table, the page file and the outcome that the scrape function gives |
| ActionTester.RunDead | pkg/cmd/action-tester/action-tester.go:117-118 | once the repo pattern has failed, no further character makes it match |
| ActionTester.RunInRepo | pkg/cmd/action-tester/action-tester.go:117-118 | in the repo part the pattern keeps matching exactly while it reads letters, digits and '-' |
| ActionTester.RunAfterSlash | pkg/cmd/action-tester/action-tester.go:117-118 | after the slash the pattern accepts exactly a non-empty run of letters, digits and '-' |
| ActionTester.RunInOrg | pkg/cmd/action-tester/action-tester.go:117-118 | inside the org part the pattern accepts exactly allowed characters, one '/', then a non-empty run of allowed characters |
| ActionTester.MatchesRepoPatternIff | pkg/cmd/action-tester/action-tester.go:117-118 | the regular expression matches a repo if and only if it is a non-empty org of allowed characters, one '/', and a non-empty repo of allowed characters |
| ActionTester.ValidateFlags | pkg/cmd/action-tester/action-tester.go:107-127 | no error exactly when the issue id is non-zero, the repo is `org/repo` and the token is set; each error holds exactly when its check is the first to fail |
| ActionTester.DefaultRepoValid | pkg/cmd/action-tester/action-tester.go:17-21 | the default repo flag passes the format check |
| ActionTester.CachePathInjective | pkg/cmd/action-tester/action-tester.go:87 | distinct issue numbers have distinct cache files |
| ActionTester.GetIssueFromCache | pkg/cmd/action-tester/action-tester.go:85-105 | the lookup reports "not found" exactly when the issue's cache file does not exist |
| ActionTester.LookupAfterSave | pkg/cmd/action-tester/action-tester.go:61-105 | after a successful save, looking the issue's number up gives back the saved issue |
| ActionTester.SaveKeepsOtherIssues | pkg/cmd/action-tester/action-tester.go:61-83 | a save leaves the lookup of every other issue number as it was |
| ActionTester.SecondRunFromCache | pkg/cmd/action-tester/action-tester.go:35-47 | after a first run fetched and cached an issue, a second run publishes the same issue from the cache whatever the fetcher now returns |
| GitHub.CheckStatus | pkg/github/github.go:161-212 | a call succeeds if and only if the status is the one it expects: 201 for creating an issue and for the token exchange, 200 for adding labels |
| GitHub.ProjectNodeId | pkg/github/github.go:384-392 | the first GraphQL error wins, then an empty project id is an error, and otherwise the id is returned; success exactly when there are no errors and the id is non-empty |
| GitHub.KeyBytes | pkg/github/github.go:418-424 | the key is accepted if and only if the first PEM block exists and is of type "RSA PRIVATE KEY", and then its bytes are used |
| GitHub.JwtWindow | pkg/github/github.go:400-406 | the token expires exactly ten minutes after its issue time, is issued by the app, and the issue time is the current time in whole seconds |
| GitHub.DivUnique | pkg/github/github.go:403-404 | a time in nanoseconds has exactly one whole-second value |
| GitHub.ExtractTokenFromBody | pkg/github/github.go:465-475 | without `"token":` the result is empty, and a result never contains a quote |
| GitHub.NoQuoteBefore | pkg/github/github.go:470 | the text before the first quote holds no quote |
| GitHub.ExtractTokenFound | pkg/github/github.go:468-472 | with `"token":` present, extraction panics exactly when no quote follows the start, and otherwise returns the text from the start up to the next quote |
| GitHub.ExtractTokenCompact | pkg/github/github.go:468-472 | a compact response gives back its token |
| GitHub.IndexOfExtend | pkg/github/github.go:468 | a first occurrence inside a text stays the first occurrence once more text is appended |
| GitHub.IndexFromExact | pkg/github/github.go:468-470 | the search finds an occurrence when none comes before it |
| GitHub.ExtractTokenSpaced | pkg/github/github.go:468-472 | a space after the colon yields the empty token, because the skipped character is the space |
| GitHub.InstallationToken | pkg/github/github.go:427-462 | a token is produced exactly when the key is usable and the exchange returns 201, and it is the token extracted from the body |
| AssignProject.LazyEnd | pkg/scripts/batch-issue-assign-project/batch-issue-assign-project.go:154-155 | the lazy `.*?` ends at the first position from which the rest of the pattern matches, and no earlier end matches |
| AssignProject.FindFrom | pkg/scripts/batch-issue-assign-project/batch-issue-assign-project.go:154-155 | the match found is the leftmost one, with the shortest `.*?`, and no match starts earlier |
| AssignProject.DigitEnd | pkg/scripts/batch-issue-assign-project/batch-issue-assign-project.go:154-160 | the greedy `\d+` takes the whole run of digits and stops at a non-digit or the end |
| AssignProject.InvalidProjectUrlIffNoMatch | pkg/scripts/batch-issue-assign-project/batch-issue-assign-project.go:154-158 | a URL is rejected as invalid if and only if the pattern matches nowhere in it |
| AssignProject.LazyEndAfterOrg | pkg/scripts/batch-issue-assign-project/batch-issue-assign-project.go:154-155 | in a project URL whose org has no slash, the `.*?` stops right after the org |
| AssignProject.ProjectUrlRoundTrip | pkg/scripts/batch-issue-assign-project/batch-issue-assign-project.go:153-163 | the number of a project URL (the form in the comment, optionally followed by a non-digit suffix) is parsed back |
| AssignProject.AssignCache | pkg/scripts/batch-issue-assign-project/batch-issue-assign-project.go:165-178 | a node id is fetched only for a URL absent from the cache, a successful fetch is stored under that URL and nothing else changes, and the stored id is the one the mutation uses |
| AssignProject.CachedUrlNotFetched | pkg/scripts/batch-issue-assign-project/batch-issue-assign-project.go:165-166 | for a cached URL the fetcher is not called and does not affect the result |
| AssignProject.AssignOnlyOnYes | pkg/scripts/batch-issue-assign-project/batch-issue-assign-project.go:187-203 | the mutation is sent exactly when the URL parses, a node id is known or fetched, and the answer to the next question (the one numbered by the questions asked before it) is exactly "y"; success exactly when the mutation is sent and succeeds |
| AssignProject.AssignAsksOnce | pkg/scripts/batch-issue-assign-project/batch-issue-assign-project.go:156-193 | one assignment asks one question exactly when the URL parses and a node id is known or fetched, and otherwise none; it sends at most one mutation per question |
| AssignProject.UrlsForMembers | pkg/scripts/batch-issue-assign-project/batch-issue-assign-project.go:132-133 | a URL is tried for a label exactly when some command of that name carries it |
| AssignProject.UrlsForAppend | pkg/scripts/batch-issue-assign-project/batch-issue-assign-project.go:132-145 | the commands of two lists one after the other give their URLs one after the other |
| AssignProject.MatchingUrlsAppend | pkg/scripts/batch-issue-assign-project/batch-issue-assign-project.go:131-146 | the labels of two lists one after the other give their URLs one after the other |
| AssignProject.MatchingUrlsMembers | pkg/scripts/batch-issue-assign-project/batch-issue-assign-project.go:131-146 | the applied URLs are exactly those of the commands named after some label of the issue |
| AssignProject.RunAllStops | pkg/scripts/batch-issue-assign-project/batch-issue-assign-project.go:141-143 | after the first error no further assignment is attempted |
| AssignProject.ErrorEndsRun | pkg/scripts/batch-issue-assign-project/batch-issue-assign-project.go:141-143 | an error after any command of any label is where the whole run ends |
| AssignProject.RunAllAsks | pkg/scripts/batch-issue-assign-project/batch-issue-assign-project.go:131-145 | a run asks at most one question per applied URL, counting on from the questions asked before it, and sends no more mutations than questions |
| AssignProject.RepeatedQuestionCanDecline | pkg/scripts/batch-issue-assign-project/batch-issue-assign-project.go:131-145 | when two labels lead to the same cached project URL, the two questions read two answers: accepting the first and declining the second sends one mutation and ends the run as declined |
| AssignProject.RunAllFetchesOnce | pkg/scripts/batch-issue-assign-project/batch-issue-assign-project.go:150-178 | within one run each URL's node id is fetched at most once and only when it was not cached; cached ids never change, and on success every fetched id is cached |
| AssignProject.FirstEligible | pkg/scripts/batch-issue-assign-project/batch-issue-assign-project.go:97-107 | every issue before the position is skipped, because it is older than the cut date or its author has an association, and the issue at the position is not |
| AssignProject.FindEligible | pkg/scripts/batch-issue-assign-project/batch-issue-assign-project.go:97-114 | the inner loop stops at the first issue that is not skipped |
| AssignProject.Scan | pkg/scripts/batch-issue-assign-project/batch-issue-assign-project.go:72-122 | the pager fetches pages from 1 and passes only full pages without an eligible issue; it stops at an error, an empty page, an eligible issue or a short page, and the issue found is the first eligible one of that page |
| AssignProject.ScanCategory | pkg/scripts/batch-issue-assign-project/batch-issue-assign-project.go:72-122 | the page loop finds the issue and stops at the page the scan function gives |
| AssignProject.FindTarget | pkg/scripts/batch-issue-assign-project/batch-issue-assign-project.go:70-123 | no issue is found exactly when no category's page loop finds one, and a found issue is the one of some category's page loop |
| AssignProject.ProjectAssigner.constructor | pkg/scripts/batch-issue-assign-project/batch-issue-assign-project.go:150 | the node-id cache starts empty, with nothing fetched, sent or asked |
| AssignProject.ProjectAssigner.AssignProjectToIssue | pkg/scripts/batch-issue-assign-project/batch-issue-assign-project.go:152-204 | the error, the cache, the fetches and mutations appended and the questions counted are those of one assignment, which reads the answer next on standard input |
| AssignProject.ProjectAssigner.ApplyCommand | pkg/scripts/batch-issue-assign-project/batch-issue-assign-project.go:140-143 | one more assignment extends a run that had no error so far |
| AssignProject.ProjectAssigner.ExecuteCommandsForLabel | pkg/scripts/batch-issue-assign-project/batch-issue-assign-project.go:131-145 | the command loop for one label extends the run by that label's URLs, in order, and stops at the first error |
| AssignProject.ProjectAssigner.ExecuteCommandsForIssue | pkg/scripts/batch-issue-assign-project/batch-issue-assign-project.go:126-148 | the label-by-command loop leaves the cache, fetches, mutations and question count of running the matching URLs in order, and returns the first error, wrapped |
| AssignProject.ProjectAssigner.AssignFirstEligible | pkg/scripts/batch-issue-assign-project/batch-issue-assign-project.go:70-123 | with no eligible issue in any category nothing changes; otherwise the first one found is processed and the script ends with its number and the run's error |

## Left out

- Network and storage calls are not modelled. This covers GitHub REST and GraphQL, Gemini embedding and token counting, OpenAI chat completions, chromem, sqlite, and file reads and writes. The network calls, file access and sqlite writes are parameters that return a value or a failure, and those parameters are the model's inputs.
- The sqlite reads (the `count(*)` queries, `Query` and row `Scan`) are given sequences of rows. Their errors are not modelled: there is no failure value for them in the vectorizer, the triager or the three dataset builders.
- JSON encoding and decoding, the cl100k tokenizer, `pem.Decode`, `x509.ParsePKCS1PrivateKey`, RSA signing of the JWT and `url.QueryEscape` are left out. Each is an opaque function argument, a given value, or absent when only its result feeds a decision.
- Embeddings, the similarity ranking and chromem's own embedding are left out. Embedding vectors are opaque values, and a query result is a given ordered list of documents.
- Sleeps, `time.Now`, `time.Since`, `rand.Intn` and the elapsed-time checks are left out. They only affect wall-clock behaviour. `GitHub.JwtClaims` takes the current time as a parameter, in nanoseconds.
- Concurrency is left out. `AddDocuments(..., runtime.NumCPU())` in the triager is one sequential bulk add.
- Logging, `fmt.Printf` progress output and `logme` are left out. This includes the "Batch i of n" line of the vectorizer: the batch count is returned rather than printed.
- Process exits (`log.Fatal`, `os.Exit`, panics) are outcome values, not process termination.
- Vectorizer.VectorizeIssues: a failed `processed = 1` update is only printed in the source, so the next iteration selects the same rows and the loop never ends. The model proves that the failed state is a fixed point (lemma `Vectorizer.MarkFailureRepeats`) and ends with the outcome `Livelock` instead of looping.
- Vectorizer: rows come back in ascending id order because the table's key is `id`. Rows are modelled as an ascending sequence rather than queried.
- The integer widths are only partly modelled. The historian's limit is an `int32` constant and is compared as an unbounded integer. Ids and Atoi results are bounded to int64 where the proofs need it, and no other overflow is modelled.
- Strings.Atoi: out-of-range inputs are clamped to the nearest int64 bound with a range error, as strconv does. Error messages are not modelled.
- GitHub: the error texts of status failures are approximations. The installation-token message prints `resp.Status`, which is modelled as the decimal code.
- GitHub.ExtractTokenFromBody: the slice panic is `None`, not a process crash.
- Strings are sequences of Unicode characters, while Go strings are bytes. Byte offsets and slices (`strings.Index`, the `+ 1` after `"token":`, `len`) are modelled as character offsets, which is exact only for ASCII text. For example, when a non-ASCII character such as U+00A0 follows `"token":`, Go skips only its first byte, and the model skips the whole character.
- The fine-tuner package does not build as written:
  - `readFileLines` is called with one argument in fine-tuner.go and with two in categorizer.go and qualitizer.go;
  - `getLabelsFromIssueLabels` is defined twice;
  - `guaranteeIssuesInDb` and `validateFile` are not part of this model.
  Each builder is modelled as written in its own file, with its own label splitter.
- The prompt constants `CategorySystemPrompt` and `QualitySystemPrompt` are not part of this model. The system prompt is a parameter of the categorizer and qualitizer builders.
- FineTuner: the answer goes out as a third message with role "system", as the code writes it. The other two builders use "assistant".
- Categorizer.JsonArrayRoundTrip: requires labels without a double quote, a backslash or a control character, because `stringArrayToJsonArray` does not escape. The decoder it is proved against is an escape-free reader, not json.Unmarshal: it refuses a backslash or control character inside a string. json.Unmarshal would read a backslash as an escape (`a\b` as "a" and a backspace) and refuses a raw control character, so labels holding either are not round-tripped (Categorizer.BackslashNotRoundTripped).
- Categorizer: the records of the `.json` side file are modelled. Their marshalling and the write are not.
- LabelsMatcher: `sort.Slice` is not stable, and the map iteration that lists the tally has no fixed order. The model picks the entries in an unspecified order. It proves the output is sorted by count, highest first, and holds each distinct URL once. The order among equal counts is not modelled.
- The labels matcher's GraphQL query, its pagination and its printing are left out. The issues arrive as their lists of project cards.
- AssignProject: the comment on `cutDate` says July 30 2024, but the code sets 2024-01-01 UTC. The model follows the code.
- AssignProject: the following happen before the model starts and are left out:
  - the app installation token and `GH_TOKEN` checks;
  - reading `fixtures/categoryLabels.txt` and `fixtures/commands.json`.
  The categories and commands are inputs. The node id is always requested for the organisation "grafana", as written. The run ends after the first eligible issue, as the source's `os.Exit(0)` does.
- AssignProject.Scan: pages past the given sequence come back as empty pages, so every category's pager ends.
- AssignProject.FirstEligible: `CreatedAt` is compared in whole Unix seconds. Sub-second parts are not modelled.
- AssignProject: the mutation `AssignProjectToIssue` is an oracle. The `addToProject` member of a command is modelled as its URL string only.
- Scrapper: a `.page.txt` that cannot be read is only reported, and it reads as empty text, which gives start page 0. A failed `setStartPage` write is only printed; the model treats every write as succeeding. Negative start pages are passed on as they are. Pages past the given sequence come back empty. The error text of the refused INSERT is approximate.
- ActionTester: the save is keyed by the fetched issue's `Number` and the lookup by the flag `issueId`. `ActionTester.SecondRunFromCache` requires the two to be equal. `PublishIssueToRepo` is left out beyond the fetched issue it publishes.
- Historian: the budget is the constant 900000. A larger budget is stated through a counter lowered by the difference (`Historian.Lowered`).
- Triager: `restoreVecots` reads a vector file. Its format is opaque: a file exists or not, and decodes to documents or fails.

## Findings

| source | as written | input that shows it | evidently intended | confidence | as-written member | corrected member |
|---|---|---|---|---|---|---|
| pkg/cmd/triager/triager.go:178-187 | the database existence check runs only when the path is empty (`*issueDbFile == ""`), so a path to a missing file is accepted | `updateVectors` true, `issueDbFile` "missing.sqlite", a file that does not exist | check existence when the path is not empty | not executed | Triager.MissingDatabaseAccepted | Triager.ValidateFlagsAccepts |
| pkg/cmd/scrapper/scrapper.go:141-144 | the INSERT names six columns but has five `?` placeholders, so every insert fails and the scraper stops at the first issue | any page holding one issue that is not a pull request | one placeholder per column: an insert-or-replace of the row | not executed | Scrapper.ScrapeAsWrittenSavesNothing | Scrapper.SavePageIntendedKeys |
| pkg/cmd/triager-openai/triager-openai.go:121 | `category.ID == 0` compares an `interface{}` holding a decoded float64 with the int 0, which is never equal, so an answer with id 0 is accepted | a first answer `{"id":0,...}` with an allowed category, then a good one | reject an id of zero as well as a missing one | not executed | TriagerOpenAi.ZeroIdTakenAsWritten | TriagerOpenAi.IdRejectedCatchesZero |
