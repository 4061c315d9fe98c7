# MiniLake: verified models

MiniLake emulates a Databricks workspace on one machine. This project models the parts of it that carry
real algorithms and proves what those parts are for. `dafny verify dfyconfig.toml` checks everything.

| files | what they model |
|---|---|
| `Text`, `DottedNames` | the Python string operations the services rely on |
| `SqlLexer`, `SqlScanners`, `SqlTokens`, `LexLaws` | the lexical grammar behind the three hand-written SQL scanners; the scanners as loops; the two tokenizers; what is read of a text printed from tokens |
| `Backticks`, `BacktickRewrites` | the translation of backtick names to double-quoted ones, and what the rewriter makes of its output |
| `Rewriter`, `QueryGrammar`, `RewriteGrammar` | the rewriter that replaces external tables by `delta_scan`, and a grammar of queries it is measured against |
| `KeywordsSeen`, `ClearQueries`, `Scripts`, `RewriteExamples` | which keywords and commas it acts on; when it is right; scripts of statements, UPDATE, DELETE and MERGE among them; texts on which it errs |
| `SqlIdentifier` | the UI's identifier quoting, whose output the server must read back |
| `TaskGraph`, `Scheduler`, `JobService` | the job graph validator, the level-by-level scheduler as a state machine, the jobs API around it |
| `ColumnTypes`, `TypeTable`, `TypeLaws`, `TypeSpellings`, `DdlSpellings` | the column type parser, the table of its words, its printers, the description of physical columns |
| `VolumeTree`, `VolumeMerge`, `VolumeMigration` | the one-time merge of legacy volume directories |
| `Clusters` | cluster states with delayed transitions that later operations supersede |
| `SavedQueries` | display names and the loop that finds a free one |
| `Grants`, `UnityCatalog` | grants and their inheritance; the Unity Catalog registries |

How the source's form is kept: loops are methods with invariants, each proved against a function that says
what it computes; objects updated in place are classes whose methods equate the new state with a function
of the old one; concurrent code is a machine whose steps are the stretches between two awaits, so that the
theorems quantify over every interleaving. What lies outside the repository is a parameter: running a task
is an oracle from task to outcome, DuckDB and the disk are what a handler finds there (`World`), a fresh
token is a counter. Handlers of one branch say what they keep and
what they leave alone.

Some things the proofs brought out:

- The rewriter misreads a query of the grammar in five ways, which `QuerySlots` makes explicit and `RewriteGrammar.GrammarExactIff`
  turns into an exact condition; `ClearQueries.ClearRewrite` excludes them all.
  - A keyword right behind a dot counts as a part of a name: `SELECT 1. FROM a.b.c` is not rewritten
    (`RewriteExamples.TrailingPointText`, `KeywordsSeen.FromSeenIff`, `JoinSeenIff`, `ClauseWordSeenIff`,
    `SetOperatorSeenIff`). Behind a hidden UNION a SELECT still opens its own FROM list, so nothing is lost there.
  - A FROM that comes first in parentheses is taken for a query: in `SELECT trim(FROM a.b.c)` a column is replaced
    (`RewriteExamples.TrimFromText`, `KeywordsSeen.CallFromSeenIff`).
  - A comma in brackets of a FROM list is taken for one between relations: in `… JOIN u ON v = [w, a.b.c]` a column
    is replaced (`RewriteExamples.ListInJoinText`, `KeywordsSeen.ListSeenIff`).
  - So is a comma of VALUES behind WITH in a derived table, `FROM (WITH x AS (…) VALUES (1), (a.b.c))`.
  - A name called as a function, `FROM a.b.c(1)`, or going on with a fourth part behind a blank, is replaced if
    its first three parts are registered (`RewriteExamples.CallText`).
- A double-quoted token touching a backtick token is the only way in which the backtick translation changes
  the tokens of a text (`Backticks.TokensPreservedIff`).
- But for that, the rewriter marks the same names before and after the translation
  (`BacktickRewrites.MarksAfterTranslation`).
- A column declared `NULL` over a `VARCHAR` is described as `void`, which is not a type
  (`TypeSpellings.DeclaredNullIsVoid`); NULL is the only such type (`TypeLaws.ReadCanon`).
- The DDL sent to DuckDB reads back as the same physical type exactly when it holds no STRUCT, because the
  quotes around field names are taken for parts of the names (`TypeSpellings.EmittedReadsBack`).
- Nothing is ever inherited from the metastore: no route can store a grant on it (`Grants.RunClean`).
- A grants update that fails halfway keeps what it had done (`Grants.FailedUpdateIff` says when that is nothing).
- A cluster update under `*` that writes `state` keeps the timers in step only under the exact condition in
  `Clusters.StateWriteKeeps`; otherwise a cluster can be stranded in PENDING (`Clusters.StuckPending`).
- A saved-query update under `*` may carry another query's `id`, after which two queries can share a name
  (`SavedQueries.ForeignIdHidesName`); no other carried `id` does harm (`SavedQueries.CarriedIdIff`).

## Model

| member | source | states |
|---|---|---|
| SqlLexer.LexSpells | src/minilake/services/sql_statements.py:285-356 | cutting a text into tokens, blanks and comments loses no character |
| LexLaws.ContextMeaning | src/minilake/services/sql_statements.py:251-259 | the scanners look back at two characters: whether the last one can stand in a name, and whether it is an `e` or `E` behind none that can |
| LexLaws.ItemsRead | src/minilake/services/sql_statements.py:140-356 | a text printed from words, signs, blanks, line comments, nested block comments, quoted names, plain strings, E-strings of several segments and dollar strings, each in a place where it can stand, is cut back into just these, whatever precedes and follows |
| LexLaws.PrintedReads | src/minilake/services/sql_statements.py:140-356 | the same of a whole text: nothing is read but what was printed |
| LexLaws.PrintedTokens | src/minilake/services/sql_statements.py:538-590 | the rewriter's tokens of a printed text are its words, signs, literals and decoded names, at their places, and nothing else |
| LexLaws.EscapedTextReads | src/minilake/services/sql_statements.py:251-272 | every text, with a backslash before each backslash and quote, behind `e'` or `E'`, is one literal that ends at its own quote, unless blanks and comments with a line break lead to another quote |
| LexLaws.UnclosedName | src/minilake/services/sql_statements.py:140-152 | a quoted name that is never closed takes the rest of the text |
| LexLaws.UnclosedString | src/minilake/services/sql_statements.py:140-152 | so does a string; an E-string also when it ends in a backslash |
| LexLaws.UnclosedDollar | src/minilake/services/sql_statements.py:245-250 | so does a dollar string whose delimiter does not come again |
| LexLaws.UnclosedComment | src/minilake/services/sql_statements.py:233-244 | so does a block comment |
| LexLaws.PrintedTranslates | src/minilake/services/sql_statements.py:216-282 | the translation of a printed text is the same text with every backtick name printed between double quotes |
| SqlScanners.ScanQuotedToken | src/minilake/services/sql_statements.py:140-152 | the scanning loop stops where the recursive definition of a quoted token ends, and tells whether it is closed |
| SqlScanners.ScanLineComment | src/minilake/services/sql_statements.py:230-232 | the loop over a line comment takes exactly the comment piece |
| SqlScanners.ScanBlockComment | src/minilake/services/sql_statements.py:233-244 | the depth-counting loop takes exactly the nested comment, or the rest of the text |
| SqlScanners.SkipStringContinuationWhitespace | src/minilake/services/sql_statements.py:177-190 | the position after blanks and comments that hold a line break, or none |
| SqlScanners.DollarQuoteDelimiter | src/minilake/services/sql_statements.py:193-213 | the delimiter of a dollar string, recognised from its context |
| SqlScanners.ScanDollarString | src/minilake/services/sql_statements.py:245-250 | a dollar string runs to its own delimiter, or to the end of the text |
| SqlScanners.ScanString | src/minilake/services/sql_statements.py:251-272 | a string with its continued segments is taken as one literal |
| SqlScanners.DebacktickIdentifiers | src/minilake/services/sql_statements.py:216-282 | the translating loop computes the piecewise translation, early return included |
| Backticks.TranslateKeepsName | src/minilake/services/sql_statements.py:273-278 | a translated name decodes to the name the backtick token decoded to |
| Backticks.Relex | src/minilake/services/sql_statements.py:216-282 | re-lexing the translation gives the token sequence with each closed backtick token translated and all else verbatim, when no double-quoted token touches a backtick token |
| Backticks.FusedTokensDiffer | src/minilake/services/sql_statements.py:216-282 | when some such tokens touch, the token sequence does change |
| Backticks.TokensPreservedIff | src/minilake/services/sql_statements.py:216-282 | the two together, on every text: meaning is preserved exactly when no such tokens touch |
| Backticks.TouchingExample | src/minilake/services/sql_statements.py:273-278 | a concrete text whose two tokens fuse |
| Backticks.Idempotent | src/minilake/services/sql_statements.py:216-282 | translating a translation changes nothing, on every text |
| Backticks.QuotedNameLexes | src/minilake/services/sql_statements.py:140-152 | a name with its quotes doubled lexes as one closed token that decodes to it |
| SqlTokens.SqlTokenSpans | src/minilake/services/sql_statements.py:285-356 | the first tokenizer's loop emits the span view of the lexical pieces |
| SqlTokens.RewriterTokens | src/minilake/services/sql_statements.py:538-590 | the rewriter's tokenizer loop emits the token view of the same pieces |
| SqlTokens.TokenizersAgree | src/minilake/services/sql_statements.py:285-590 | on every text both tokenizers give the same spans and corresponding kinds |
| SqlTokens.DebacktickIsPiecewise | src/minilake/services/sql_statements.py:224-282 | the translator cuts strings, quoted names, dollar strings and comments where the tokenizers do |
| BacktickRewrites.MarksAfterTranslation | src/minilake/services/sql_statements.py:1200-1237 | on every text in which no double-quoted token touches a backtick name, the translated text has the same tokens but for their positions, and the rewriter marks the same names |
| Rewriter.ExternalNameAt | src/minilake/services/sql_statements.py:592-619 | a name is found exactly at a gapless three-part name that is not part of a longer one |
| Rewriter.RewriterStep | src/minilake/services/sql_statements.py:651-805 | one round of the loop: the next token, the scopes left, the registered name found |
| Rewriter.MarksAreOk | src/minilake/services/sql_statements.py:650-805 | every marked name is registered, in increasing order and without overlap |
| Rewriter.RunTo | src/minilake/services/sql_statements.py:650-805 | the loop ends, its scope stack never empty and its index never past the last token |
| Rewriter.Splice | src/minilake/services/sql_statements.py:807-808 | splicing right to left equals the left-to-right substitution with all other text verbatim |
| Rewriter.RewriteSqlForDuckdb | src/minilake/services/sql_statements.py:519-811 | the whole rewriter, terminating on every text and registry, computes the specified rewriting |
| Rewriter.NothingRegistered | src/minilake/services/sql_statements.py:531-533 | the early return for an empty registry agrees with the general case |
| Rewriter.ReplacedSpans | src/minilake/services/sql_statements.py:592-808 | on every text the replaced spans are increasing, disjoint, registered names, and outside every string and comment |
| Rewriter.DeltaScanReads | src/minilake/services/sql_statements.py:706-707 | the replacement is read as a call of `delta_scan` with one literal that stands for the location, for every location and in any text |
| QueryGrammar.Role | src/minilake/services/sql_statements.py:632-648 | the words of the grammar, written out, are those the rewriter acts on, each in its own way |
| QueryGrammar.ThreePart | src/minilake/services/sql_statements.py:592-619 | the three-part names of the grammar are those the rewriter looks for |
| RewriteGrammar.GrammarMarks | src/minilake/services/sql_statements.py:592-805 | for every query of the grammar exactly the registered three-part names where the rewriter expects a relation are marked, in order; `QuerySlots` lists every three-part name of the query with whether one is expected there and whether it is one |
| RewriteGrammar.GrammarExactIff | src/minilake/services/sql_statements.py:592-805 | exactly the registered relations of the query are marked if and only if every registered name is read as it is meant |
| RewriteGrammar.GrammarRewrite | src/minilake/services/sql_statements.py:519-811 | on the text of such a query exactly those names are replaced and every other character is kept |
| ClearQueries.ClearRewrite | src/minilake/services/sql_statements.py:519-811 | exactly the registered relations of a query are replaced, whatever is registered, if no keyword is right behind a dot, no `trim` call begins with FROM, no registered name is called or goes on with a fourth part, and no bracketed value of a FROM list, and no VALUES behind WITH in a derived table, holds a comma |
| Scripts.ScriptMarks | src/minilake/services/sql_statements.py:592-805 | for every script of queries, statements around a query (INSERT, CREATE, EXPLAIN), UPDATE with a FROM, and DELETE and MERGE with a USING, exactly the registered three-part names where the rewriter expects a relation are marked; each semicolon starts afresh |
| Scripts.ScriptExactIff | src/minilake/services/sql_statements.py:592-805 | exactly the registered relations of a script are marked if and only if every registered name is read as it is meant |
| Scripts.ScriptRewrite | src/minilake/services/sql_statements.py:519-811 | on the text of a script exactly the marked names are replaced and every other character is kept |
| Scripts.ClearScript | src/minilake/services/sql_statements.py:519-811 | exactly the registered relations of a script are replaced, whatever is registered, under the conditions of `ClearQueries.ClearRewrite` |
| KeywordsSeen.FromSeenIff | src/minilake/services/sql_statements.py:714-749 | in any context the relation behind a FROM is marked exactly when no dot stands before the FROM |
| KeywordsSeen.JoinSeenIff | src/minilake/services/sql_statements.py:744-749 | the same for a JOIN |
| KeywordsSeen.CommaMarksIff | src/minilake/services/sql_statements.py:681-685 | in any context a name right behind a comma is marked exactly when the rewriter is in a FROM list |
| KeywordsSeen.ClauseWordSeenIff | src/minilake/services/sql_statements.py:792-797 | in a FROM list, a name behind the first comma of a clause or of parentheses is taken for a relation exactly when a dot stands before the clause word |
| KeywordsSeen.ListSeenIff | src/minilake/services/sql_statements.py:681-685 | in a FROM list, a column behind a comma in brackets is left alone exactly when a parenthesis was opened since, or a clause word came that no dot hides |
| KeywordsSeen.SetOperatorSeenIff | src/minilake/services/sql_statements.py:776-780 | the relation of a PIVOT operand is marked exactly when no dot stands before UNION, INTERSECT or EXCEPT |
| KeywordsSeen.CallFromSeenIff | src/minilake/services/sql_statements.py:655-673 | in any context the column behind a call's own FROM is left alone exactly when neither FROM nor WITH comes first in the call, or a dot stands before the FROM |
| KeywordsSeen.PivotSeenIff | src/minilake/services/sql_statements.py:750-762 | in any context the name behind a PIVOT is marked exactly when no dot hides the PIVOT, no query has begun, and no FROM list goes on in which none is expected |
| KeywordsSeen.UsingMarksIff | src/minilake/services/sql_statements.py:763-775 | in any context the name behind a USING is marked exactly when a DELETE or MERGE waits for it and no dot hides the USING |
| KeywordsSeen.UsingSeenIff | src/minilake/services/sql_statements.py:727-769 | the name behind the first USING of a statement is marked exactly when the statement begins with DELETE or MERGE and no dot stands before the USING |
| KeywordsSeen.SecondUsing | src/minilake/services/sql_statements.py:763-775 | the name behind a later USING is never marked |
| RewriteExamples.TrailingPointText | src/minilake/services/sql_statements.py:714-749 | the text `SELECT 1. FROM a.b.c` is returned as it is, whatever is registered |
| RewriteExamples.TrimFromText | src/minilake/services/sql_statements.py:655-673 | in `SELECT trim(FROM a.b.c)` a registered name is replaced though it is a column |
| RewriteExamples.ListInJoinText | src/minilake/services/sql_statements.py:681-685 | in `SELECT x FROM t JOIN u ON v = [w, a.b.c]` a registered name is replaced though it is a column |
| RewriteExamples.CallText | src/minilake/services/sql_statements.py:592-619 | in `SELECT * FROM a.b.c(1)` a registered name is replaced though it is called as a function |
| SqlIdentifier.PartLexes | ui/src/lib/sql-identifier.ts:24-27 | every quoted part lexes as one token that decodes to the name |
| SqlIdentifier.RefTokens | ui/src/lib/sql-identifier.ts:30-37 | a table reference reads back as its three names joined by touching dots |
| SqlIdentifier.PreviewLexes | ui/src/lib/sql-identifier.ts:40-42 | the tokens of a preview statement, for every three non-empty names |
| SqlIdentifier.PreviewRewrite | ui/src/lib/sql-identifier.ts:40-42 | a preview of a registered external table is always rewritten to its location, any other is left alone |
| SqlIdentifier.PreviewServed | src/minilake/services/sql_statements.py:1200-1237 | backtick translation leaves every preview as it is, so this is what the two steps together make of it |
| TaskGraph.TaskGraphError | src/minilake/services/jobs.py:108-139 | no error iff keys are unique, dependencies known and a topological order exists; each error iff its own cause; the cycle error iff some set of tasks waits on itself |
| TaskGraph.OrderedIsNotStuck | src/minilake/services/jobs.py:127-139 | a graph cannot have both a topological order and a set of tasks that waits on itself |
| TaskGraph.SelfDependencyIsStuck | src/minilake/services/jobs.py:108-139 | a task that depends on itself is such a set, so its graph is refused |
| Scheduler.RunIfMeaning | src/minilake/services/jobs.py:611-633 | what each of the six conditions says about the states of the dependencies: SUCCESS, FAILED or TIMEDOUT, TERMINATED or SKIPPED |
| Scheduler.RunsIff | src/minilake/services/jobs.py:611-709 | when a task is executed, told by its condition and the states its direct dependencies came to; ALL_SUCCESS is the default |
| Scheduler.SpecMeaning | src/minilake/services/jobs.py:701-714 | the specified result of a task is what running it yields, or SKIPPED without a result state when its condition fails |
| Scheduler.DepthExists | src/minilake/services/jobs.py:108-139 | every accepted graph has dependency depths |
| Scheduler.NeverStalls | src/minilake/services/jobs.py:715-720 | on an accepted graph the branch for an unschedulable remainder is unreachable |
| Scheduler.ReadyIsLevel | src/minilake/services/jobs.py:715-734 | round r runs exactly the tasks of dependency depth r |
| Scheduler.NextInv | src/minilake/services/jobs.py:696-734 | every step keeps the scheduler's invariant, whatever the order inside a round |
| Scheduler.NextKeepsResults | src/minilake/services/jobs.py:696-734 | a result is given once, after all dependencies have theirs, and never changes |
| Scheduler.NextAsSpecified | src/minilake/services/jobs.py:696-734 | without cancellation every step gives the recursively specified result |
| Scheduler.SchedulerRefinesSpec | src/minilake/services/jobs.py:667-734 | a finished run without cancellation has the specified result for every task, started exactly the tasks specified, and none of these raises, in any interleaving |
| Scheduler.RaisingRun | src/minilake/services/jobs.py:722-734 | a run without cancellation that ends by an exception ends at the lowest level on which an executed task raises; up to there results and starts are as specified, above it there are none |
| Scheduler.ExecuteRunTasks | src/minilake/services/jobs.py:710-734 | the loop ends with a result for every task or at a level that raised; both as the recursive specification says when nothing is flagged, and with no start when everything is |
| Scheduler.AllSuccessAncestors | src/minilake/services/jobs.py:611-633 | if every condition is ALL_SUCCESS a task executes iff all its ancestors executed and succeeded |
| Scheduler.RunKeepsInv | src/minilake/services/jobs.py:667-734 | the invariant holds at every moment of every run, cancelled or not |
| Scheduler.CancelStopsStarts | src/minilake/services/jobs.py:696-714 | once the flag is set no task starts |
| Scheduler.CancelledRun | src/minilake/services/jobs.py:701-714 | whenever the flag is set: the tasks that began under it are CANCELED, every other result and start is what the actual results of its dependencies and the oracle give, at every moment and in any interleaving |
| Scheduler.SomeStepEnabled | src/minilake/services/jobs.py:696-734 | until the run is over some step can be taken |
| Scheduler.StepsDecrease | src/minilake/services/jobs.py:696-734 | every step leaves fewer steps, so every run ends |
| JobService.GraphErrorUnreachable | src/minilake/services/jobs.py:667-694 | the graph check at the start of a stored run always passes |
| JobService.HandleOk | src/minilake/services/jobs.py:157-242 | every handler and every segment of a run keeps stored graphs valid and runs consistent |
| JobService.HandleMovesRuns | src/minilake/services/jobs.py:636-762 | one event moves a run only PENDING to RUNNING to TERMINATED, keeps its result and its flag, and starts no task of a cancelled run |
| JobService.EndedResult | src/minilake/services/jobs.py:735-762 | a run that ends without an exception is CANCELED iff flagged, else FAILED iff a task failed or timed out, else SUCCESS, with one result a task |
| JobService.EventsOk | src/minilake/services/jobs.py:157-950 | consistency over every sequence of events |
| JobService.RunsOnlyMoveOn | src/minilake/services/jobs.py:636-950 | over every sequence of events a run never goes back, has a result iff TERMINATED, and its id is not reused |
| JobService.NoStartAfterCancel | src/minilake/services/jobs.py:920-930 | after a cancellation request a run starts no further task, whatever happens next |
| JobService.RunNowIsIdempotent | src/minilake/services/jobs.py:765-781 | a retried run-now with a token starts nothing and names the first run as long as that exists |
| JobService.SubmitIsIdempotent | src/minilake/services/jobs.py:819-862 | a retried submit with a token starts nothing and names the first run even when that was deleted; an empty token is none |
| JobService.SourceIsGathered | src/minilake/services/jobs.py:667-676 | after any requests, a run that starts gathers the tasks that the accepted requests last gave its job, none when it was deleted, or those it was submitted with |
| JobService.ApiRunRefinesSpec | src/minilake/services/jobs.py:636-762 | after any requests, and whatever else the service handles meanwhile, a run that is not cancelled ends with the specified result for each of these tasks, as FAILED when one of them FAILED or TIMEDOUT, else as SUCCESS; or, iff an executed task raises, as FAILED without task results |
| JobService.Jobs.CreateJobHandler | src/minilake/services/jobs.py:157-170 | the new state and answer of creating a job |
| JobService.Jobs.UpdateJobHandler | src/minilake/services/jobs.py:192-214 | the new state and answer of updating a job; a refused graph leaves the old settings |
| JobService.Jobs.ResetJobHandler | src/minilake/services/jobs.py:217-229 | the new state and answer of replacing a job's settings |
| JobService.Jobs.RunNowHandler | src/minilake/services/jobs.py:765-816 | the new state and answer of run-now, tokens included |
| JobService.Jobs.SubmitRunHandler | src/minilake/services/jobs.py:819-862 | the new state and answer of submitting a one-shot run |
| JobService.Jobs.CancelRunHandler | src/minilake/services/jobs.py:920-930 | only the run's flag is set, no other run, job or token changes, and the service stays consistent |
| JobService.Jobs.DeleteRunHandler | src/minilake/services/jobs.py:933-950 | exactly a run that is TERMINATED goes, nothing else changes, and the service stays consistent |
| JobService.Jobs.ExecuteRun | src/minilake/services/jobs.py:636-694 | the first segment of a run |
| JobService.Jobs.StepRunTasks | src/minilake/services/jobs.py:696-714 | a step touches one run only, keeps its life, result and every task result already given, and starts nothing when the run is flagged |
| JobService.Jobs.FinishRun | src/minilake/services/jobs.py:735-762 | the last segment of a run |
| ColumnTypes.SplitTopLevel | src/minilake/uc_types.py:263-279 | the loop with its depth counter computes the pieces between commas at depth 0, trimmed and non-empty |
| ColumnTypes.ParseType | src/minilake/uc_types.py:137-194 | the fused parser, which builds texts on the way up, agrees with reading a syntax tree and rendering it, errors included |
| ColumnTypes.StructOf | src/minilake/uc_types.py:210-233 | the loop over fields renders the fields read, or gives the first field's error |
| ColumnTypes.DecimalSpec | src/minilake/uc_types.py:236-246 | precision and scale as Python's `int` reads them, with their defaults and errors |
| TypeTable.TableOfKinds | src/minilake/uc_types.py:35-61 | the parser's kinds agree with the table of aliases, written out row by row, on every word |
| TypeTable.HeadMeaning | src/minilake/uc_types.py:185-194 | an alias with any arguments gives its row, and only CHAR and VARCHAR keep the first argument, in the type text |
| TypeTable.AliasMeaning | src/minilake/uc_types.py:35-61 | every text that spells an alias, in any case and with blanks around it, normalises to the alias's row |
| TypeTable.PaddedAlias | src/minilake/uc_types.py:35-61 | the same with the blanks written out |
| TypeTable.BareMeaning | src/minilake/uc_types.py:137-194 | what every text without brackets comes to: a row, DECIMAL(10,0) for DECIMAL and NUMERIC, or the error due |
| TypeTable.DecimalMeaning | src/minilake/uc_types.py:236-246 | DECIMAL and NUMERIC with one number have scale 0, with two both count, more are refused |
| Text.UpperAscii | src/minilake/uc_types.py:149-150 | on ASCII text upper case keeps the length and moves the 26 letters |
| TypeLaws.SplitJoin | src/minilake/uc_types.py:263-279 | splitting at the top level inverts joining bracket-balanced parts by commas, with or without blanks |
| TypeLaws.HeadArgs | src/minilake/uc_types.py:249-260 | a head with bracketed arguments splits into just these |
| TypeLaws.IntOfPrinted | src/minilake/uc_types.py:236-246 | a printed integer is read back |
| TypeLaws.ReadCanon | src/minilake/uc_types.py:137-233 | reading a type's canonical text gives the type again, and the error about `void` exactly when NULL occurs in it |
| TypeSpellings.ReadDuck | src/minilake/uc_types.py:143-233 | DuckDB's spelling with unquoted field names denotes the physical type |
| TypeSpellings.ReadEmitted | src/minilake/uc_types.py:224-230 | the emitted DDL reads back with the quotes in the field names |
| TypeSpellings.EmittedReadsBack | src/minilake/uc_types.py:224-230 | so it reads back as the physical type exactly when it holds no STRUCT |
| DdlSpellings.SameDdl | src/minilake/services/unity_catalog.py:337-345 | two types have the same DDL exactly when they are physically the same, whatever blanks and delimiters their field names hold between the quotes |
| DdlSpellings.QuoteAndComma | src/minilake/uc_types.py:224-230 | a field name with a double quote and a comma can make one DDL of two types |
| TypeSpellings.ReadClean | src/minilake/uc_types.py:137-233 | an accepted text has no empty STRUCT, name or length and no blanks around them |
| TypeSpellings.NormalizeAgain | src/minilake/uc_types.py:88-102 | for every accepted text, normalising its canonical text gives the same spec again, exactly when NULL does not occur |
| TypeSpellings.SpellingsAgree | src/minilake/uc_types.py:143-233 | the Spark and the DuckDB spelling of a type normalise to one physical type |
| TypeSpellings.JsonDetermines | src/minilake/uc_types.py:152-233 | the Spark JSON of a type determines it, up to the lengths of CHAR and VARCHAR |
| TypeSpellings.DescribeColumns | src/minilake/services/unity_catalog.py:348-392 | the physical schema decides which columns exist; each is described on its own, in order |
| TypeSpellings.DescribedKeepsPhysical | src/minilake/services/unity_catalog.py:348-392 | a described column keeps the physical type, and its text normalises back to it exactly when the chosen type has no NULL |
| TypeSpellings.DescribedKeepsRest | src/minilake/services/unity_catalog.py:348-392 | a described column keeps the physical name, place and nullability, and the comment of its last declaration |
| DdlSpellings.KeepsDeclared | src/minilake/services/unity_catalog.py:337-345 | a declared spelling is kept exactly when it denotes the physical type |
| TypeSpellings.DeclaredNullIsVoid | src/minilake/services/unity_catalog.py:337-392 | a concrete declaration whose described type text is no type |
| VolumeTree.MovedWellFormed | src/minilake/services/volume_paths.py:47-55 | moving any of the children keeps every entry in a directory |
| VolumeMerge.FileSystem.Check | src/minilake/services/volume_paths.py:32-45 | the preflight passes exactly when no legacy entry is a symlink and none clashes, at any depth; else it names one that does |
| VolumeMerge.FileSystem.MoveContents | src/minilake/services/volume_paths.py:47-55 | after a passed preflight the recursive move yields the moved tree, overwriting nothing, in any order of the entries |
| VolumeMerge.FileSystem.MergeLegacyVolume | src/minilake/services/volume_paths.py:12-59 | merged, absent or refused exactly when stated; a refusal changes nothing and tells a true reason |
| VolumeMerge.MergeableIff | src/minilake/services/volume_paths.py:12-45 | a legacy directory is merged exactly when it is one, no symlink is below it, and what it shares with the volume are directories on both sides |
| VolumeMigration.MigrateLegacyVolumeData | src/minilake/services/volume_paths.py:62-90 | with the marker nothing happens; all volumes are merged and the marker left exactly when every volume can be merged; else it stops at one that cannot, some others merged, no marker |
| VolumeMigration.OneMore | src/minilake/services/volume_paths.py:62-85 | merging volume by volume equals merging their set at once, so their order plays no part |
| VolumeMigration.AcceptsKept | src/minilake/services/volume_paths.py:62-85 | merging some volumes does not change whether another can be merged |
| VolumeMigration.DisjointUnion | src/minilake/services/volume_paths.py:12-59 | below a merged volume are the entries of both trees, no file is in both, and the legacy directory is gone |
| VolumeMigration.ElsewhereUnchanged | src/minilake/services/volume_paths.py:62-90 | everything outside the merged volumes stays as it is |
| VolumeMigration.Again | src/minilake/services/volume_paths.py:62-90 | merging a set of volumes after some of them were merged equals merging the set at once |
| VolumeMigration.RepairedFinds | src/minilake/services/volume_paths.py:62-85 | after a stop and a repair the second pass visits the same volumes and accepts the same ones as one pass after the repair |
| VolumeMigration.RunAgain | src/minilake/services/volume_paths.py:62-90 | a pass that stopped, then a repair, then a second pass: it succeeds exactly when one pass after the repair would have, and leaves the same tree and marker, having merged exactly the volumes left |
| Clusters.HandleKeeps | src/minilake/services/clusters.py:85-303 | every operation and timer keeps: transient exactly with a live token, held by one timer bound for the state's goal |
| Clusters.RunConsistent | src/minilake/services/clusters.py:85-303 | the same over every run without an update that writes the state |
| Clusters.StateWriteKeeps | src/minilake/services/clusters.py:219-221 | exactly when an update that writes the state keeps this |
| Clusters.SupersededTimerIsIdle | src/minilake/services/clusters.py:92-100 | a superseded, deleted or reset timer changes no cluster and no token when it fires, however much later |
| Clusters.StaleForever | src/minilake/services/clusters.py:85-100 | a timer that lost its token never gets it back |
| Clusters.TimerSettles | src/minilake/services/clusters.py:92-107 | a transient cluster has a timer asleep that brings it to its goal |
| Clusters.RunRefines | src/minilake/services/clusters.py:85-303 | runs refine a machine with one pending target a cluster, timers firing in any order |
| Clusters.LastOperationWins | src/minilake/services/clusters.py:247-303 | a cluster is in, or bound for, the target of its last operation, and there once all timers have fired |
| Clusters.TimingDoesNotMatter | src/minilake/services/clusters.py:92-107 | two runs of the same operations end in the same states however their timers interleave |
| Clusters.StuckPending | src/minilake/services/clusters.py:247-257 | a cluster written into PENDING without a timer stays there through starts and timers |
| Clusters.WritePendingStrands | src/minilake/services/clusters.py:219-221 | such a state is one update away from a running cluster |
| Clusters.UpdateWrites | src/minilake/services/clusters.py:198-224 | an update is accepted exactly when its mask names known fields or `*`; it writes the masked fields of the payload, under `*` all of it, and keeps the rest |
| Clusters.FieldsWritten | src/minilake/services/clusters.py:153-303 | editing and resizing write the fields sent, pinning and a new owner one field each, and all other fields stay |
| Clusters.Service.Transition | src/minilake/services/clusters.py:92-107 | the new state when a timer fires |
| Clusters.Service.UpdateCluster | src/minilake/services/clusters.py:198-224 | the new state and answer of an update, under its mask |
| Clusters.Service.StartCluster | src/minilake/services/clusters.py:247-257 | the new state and answer of a start, a no-op when running or pending |
| Clusters.Service.CreateCluster | src/minilake/services/clusters.py:114-147 | the cluster is bound for RUNNING with a live timer; other clusters, tokens and sleeping timers stay, and the invariant is kept |
| Clusters.Service.TerminateCluster | src/minilake/services/clusters.py:260-269 | the same towards TERMINATED |
| Clusters.Service.RestartCluster | src/minilake/services/clusters.py:281-289 | the same towards RUNNING |
| Clusters.Service.ResizeCluster | src/minilake/services/clusters.py:292-303 | the same towards RUNNING, with the new sizes |
| Clusters.Service.PermanentDeleteCluster | src/minilake/services/clusters.py:272-278 | record and token go; all else stays, sleeping timers included, and the invariant is kept |
| SavedQueries.AllTakenBound | src/minilake/services/saved_queries.py:82-90 | pigeonhole: n taken candidates need n stored queries |
| SavedQueries.ResolveDisplayName | src/minilake/services/saved_queries.py:82-90 | the loop ends with the base or the least free suffix, no larger than the number of queries, and the name is free |
| SavedQueries.FirstSuffix | src/minilake/services/saved_queries.py:82-90 | with only the base taken the name found is the base with ` (1)` |
| SavedQueries.CreateWrites | src/minilake/services/saved_queries.py:117-150 | when a create is refused, and what it stores: the payload under the new id, the name given or a free one |
| SavedQueries.UpdateWrites | src/minilake/services/saved_queries.py:199-250 | when an update is refused, and what it writes: the masked fields, the name sent or a free one |
| SavedQueries.HandleKeeps | src/minilake/services/saved_queries.py:117-259 | the modern routes keep non-empty display names distinct, for payloads without another id |
| SavedQueries.RunKeeps | src/minilake/services/saved_queries.py:117-259 | the same over every sequence of requests |
| SavedQueries.SameNameAgain | src/minilake/services/saved_queries.py:234-243 | sending a query its own name changes no name, resolved automatically or not |
| SavedQueries.IdsKeptIff | src/minilake/services/saved_queries.py:223-245 | an accepted update keeps ids and keys equal exactly when it carries no other id |
| SavedQueries.OrdinaryKeeps | src/minilake/services/saved_queries.py:117-259 | names stay distinct through every modern request even where an `id` is no key at all |
| SavedQueries.NamesStayApartIff | src/minilake/services/saved_queries.py:73-79 | names stay distinct through every run of such requests exactly when no query's `id` is the key of another |
| SavedQueries.CarriedIdIff | src/minilake/services/saved_queries.py:223-245 | after an accepted update they do so exactly when it did not carry the key of another stored query |
| SavedQueries.ForeignIdHidesName | src/minilake/services/saved_queries.py:73-79 | two concrete requests after which two queries share a name |
| SavedQueries.LegacyRenameKeepsIff | src/minilake/services/preview_sql.py:239-246 | the legacy rename keeps names distinct exactly when the new one is free or empty |
| SavedQueries.Service.CreateQuery | src/minilake/services/saved_queries.py:117-150 | the new store and answer of creating a query |
| SavedQueries.Service.UpdateQuery | src/minilake/services/saved_queries.py:199-250 | the new store and answer of a masked update |
| DottedNames.DottedPrefix | src/minilake/services/grants.py:108-119 | a name starts with another and a dot exactly when the other's parts are its first parts |
| Grants.ApplyAllMeaning | src/minilake/services/grants.py:153-170 | a privilege is held after the changes exactly when the last change touching it adds it, or none does and it was held |
| Grants.Service.UpdatePermissions | src/minilake/services/grants.py:142-179 | the store after an update, including the part applied before an error |
| Grants.ApplyAllIdleIff | src/minilake/services/grants.py:153-170 | changes leave the grants as they were exactly when, for each privilege, the last change touching it adds one that is held or removes one that is not |
| Grants.FailedUpdateIff | src/minilake/services/grants.py:142-179 | an update failing for want of a principal shows no trace exactly when the changes before it are so; the store is the same exactly when, besides, the securable had an entry |
| Grants.FailedUpdateKeepsPrefix | src/minilake/services/grants.py:153-160 | a concrete update that fails and leaves its first change in place |
| Grants.Service.GetEffectivePermissions | src/minilake/services/grants.py:182-226 | the union of the grants along the ancestor chain, each privilege with its nearest source |
| Grants.ChainOrder | src/minilake/services/grants.py:86-97 | the chain of a nested name of n parts has n + 1 entries: the securable, then the one named by each shorter prefix, nearest first, then the metastore; the chain of any other kind is the securable and the metastore |
| Grants.SourceIff | src/minilake/services/grants.py:182-226 | a privilege is tagged direct exactly when it is granted on the securable itself, and inherited from one above exactly when it is granted there and on none with more parts |
| Grants.KindOfSegment | src/minilake/services/grants.py:49-59 | the part after the last dot of the path segment, in upper case, is the kind |
| Grants.ValidIff | src/minilake/services/grants.py:66-83 | a name is accepted exactly when it has the parts of its nested kind, or the kind is not nested |
| Grants.UpdateFailsIff | src/minilake/services/grants.py:142-160 | an update fails exactly on a name of the wrong length or a change without a principal |
| Grants.Nearest | src/minilake/services/grants.py:194-207 | the first securable of a chain on which a principal holds a privilege |
| Grants.Service.DeleteGrantsForParent | src/minilake/services/grants.py:104-121 | the keys that go, and nothing else |
| Grants.DeletedAreDescendants | src/minilake/services/grants.py:86-121 | among well-formed keys these are exactly the parent's own and those with the parent among their ancestors |
| Grants.UpdateKeepsKeys | src/minilake/services/grants.py:66-83 | only well-formed keys are ever stored |
| Grants.NothingFromMetastore | src/minilake/services/grants.py:46-97 | on a store of well-formed keys no privilege is inherited from the metastore |
| Grants.RunClean | src/minilake/services/grants.py:86-179 | every run of updates and deletions stores such keys only and no principal without privileges, so nothing is ever inherited from the metastore |
| UnityCatalog.HandleKeeps | src/minilake/services/unity_catalog.py:400-956 | every handler keeps parents registered before children and the external tables equal to the EXTERNAL Delta part of the tables |
| UnityCatalog.RunKeeps | src/minilake/services/unity_catalog.py:400-1339 | the same over every sequence of handler calls |
| UnityCatalog.TableRegistered | src/minilake/services/unity_catalog.py:694-803 | when a table is accepted; it is then registered with its type, format, location and columns, an EXTERNAL Delta one with its location in the external registry too, and nothing else changes |
| UnityCatalog.ColumnsRead | src/minilake/services/unity_catalog.py:720-739 | columns are accepted exactly when each name is an identifier and each type normalises, and each keeps its place |
| UnityCatalog.SchemaRegistered | src/minilake/services/unity_catalog.py:529-571 | when a schema is accepted, and that it is registered under its dotted name |
| UnityCatalog.CatalogRegistered | src/minilake/services/unity_catalog.py:400-439 | when a catalog is accepted, and that it comes with a default schema |
| UnityCatalog.ObjectsRegistered | src/minilake/services/unity_catalog.py:1016-1296 | the same for volumes and functions |
| UnityCatalog.IdentifierIff | src/minilake/uc_types.py:113-129 | an identifier is made of letters, digits and underscores, with no digit first |
| UnityCatalog.ObjectPrefix | src/minilake/services/unity_catalog.py:657-682 | a prefix with a trailing dot selects exactly the objects of that catalog or schema, because identifiers bar dots |
| UnityCatalog.DefaultSchemaIsFree | src/minilake/services/unity_catalog.py:434-437 | the default schema of a new catalog never exists yet, so creating it never fails halfway |
| UnityCatalog.CatalogDeletion | src/minilake/services/unity_catalog.py:482-521 | a deletion removes exactly what lies in the catalog; without force only the catalog and its default schema |
| UnityCatalog.SchemaDeletion | src/minilake/services/unity_catalog.py:616-654 | a deletion removes exactly what lies in the schema; without force nothing did |
| UnityCatalog.CatalogGrantsGone | src/minilake/services/unity_catalog.py:657-669 | after a catalog deletion a grant is left exactly when it was there and neither on the catalog nor below it |
| UnityCatalog.SchemaGrantsGone | src/minilake/services/unity_catalog.py:672-687 | the same after a schema deletion |
| UnityCatalog.DropNames | src/minilake/services/unity_catalog.py:663-665 | the deleting loop removes exactly the names with the prefix |
| UnityCatalog.Service.CreateCatalogHandler | src/minilake/services/unity_catalog.py:400-439 | the new registries and answer of creating a catalog |
| UnityCatalog.Service.DeleteCatalogHandler | src/minilake/services/unity_catalog.py:482-521 | the new registries, grants included, and answer of deleting a catalog |
| UnityCatalog.Service.CreateSchemaHandler | src/minilake/services/unity_catalog.py:529-571 | the new registries and answer of creating a schema |
| UnityCatalog.Service.DeleteSchemaHandler | src/minilake/services/unity_catalog.py:616-654 | the new registries, grants included, and answer of deleting a schema |
| UnityCatalog.Service.CreateTableHandler | src/minilake/services/unity_catalog.py:694-803 | the new registries and answer of creating a table; a refused create leaves nothing behind |
| UnityCatalog.Service.DeleteTableHandler | src/minilake/services/unity_catalog.py:925-956 | the table and its external entry go, every other registry stays, and the invariant is kept |
| UnityCatalog.Service.CreateVolumeHandler | src/minilake/services/unity_catalog.py:1016-1054 | the volume registry grows by that name exactly on success, every other stays, and the invariant is kept |
| UnityCatalog.Service.CreateFunctionHandler | src/minilake/services/unity_catalog.py:1247-1296 | the same for functions |
| UnityCatalog.ReadColumnsLoop | src/minilake/services/unity_catalog.py:720-739 | declared columns are normalised one by one, the first refusal deciding |

## Left out

- RewriteGrammar.GrammarMarks: the grammar has no `SELECT * EXCEPT (…)` and no keyword as a column label or argument name (`AS from`, `f(from := x)`), which the rewriter reads as the keyword; on those only the all-texts results of `Rewriter` apply.
- Scripts.ScriptMarks: a DELETE without a USING, a USING that a dot hides (`KeywordsSeen.UsingSeenIff` covers it) and, behind the source of a MERGE, commas outside parentheses (`SET a = 1, b = 2`) are outside the grammar.
- LexLaws.ItemsRead: a word that begins with `$` is not among the items; whether it is one depends on a second `$` further on.
- RewriteGrammar.GrammarRewrite: also outside the grammar are a decimal that touches a keyword (`SELECT.5`), a relation that is a `trim(FROM …)` call, a JOIN or WITHIN GROUP inside a clause whose word stands behind a dot, a FROM-first or PIVOT operand of a set operator that does, in a FROM list a field of a bracketed value that ends in a placeholder (`{'a': x, 'b': ?}.a`), and behind a comma there a number whose trailing point touches the next token.
- KeywordsSeen.SetOperatorSeenIff: PIVOT operands stand for all that a set operator opens besides SELECT.
- ClearQueries.ClearRewrite: names are compared as they are spelled, as in the code; SQL would fold their case.
- SqlIdentifier.PreviewRewrite: a negative or fractional limit is not modelled; names are code points, not UTF-16 units.
- Scheduler.SchedulerRefinesSpec: the specified results are those of runs in which no cancellation arrives; `CancelledRun` says what the others come to.
- Scheduler.ExecuteRunTasks: the tasks of a level run one after another there; that their order and overlap play no part is what the state machine shows.
- JobService.RunsOnlyMoveOn: restoring a snapshot and the reset route are not events.
- ColumnTypes.ParseType: Unicode decimal digits in DECIMAL arguments, Python's limit on the length of an integer literal and its recursion limit are not modelled; a message's column name is left out.
- DdlSpellings.SameDdl: field names that hold both a double quote and a bracket or comma are excluded; `QuoteAndComma` shows what such a name can do.
- TypeSpellings.NormalizeAgain: field names and lengths that hold a bracket, a comma or a colon are excluded; whether such a text round-trips depends on where the delimiter falls.
- VolumeMerge.FileSystem.Check: a symlink is only a third kind of node; following one, an interrupted move and operating system errors are not modelled.
- VolumeMigration.RunAgain: the operator's repair touches no volume that is already merged, and is any removal and addition of entries elsewhere; one that puts the marker in place ends both passes at once.
- Clusters.RunConsistent: `restore_state` is not an event; it brings clusters back without timers. Pinning, unpinning and changing the owner are in `Handle` but have no method of their own.
- UnityCatalog.HandleKeeps: each handler is one atomic step; what DuckDB and the disk hold is a parameter, and an error of theirs is taken to come before any registry changes.
- UnityCatalog.Service.CreateTableHandler: comments, properties, owners, ids and timestamps are left out of the records of every registry.
- SavedQueries.NamesStayApartIff: the id of a created query is taken to be new, as a uuid is.
- Grants.Service.GetEffectivePermissions: the sorting and the principal filter of the response are left out.
- `str.upper()` is exact on ASCII and on the characters whose upper case is ASCII; other characters are left as they are, which no keyword can tell apart.
- Clock times, log lines, uuid generation (tokens are fresh by construction), response formatting and HTTP status codes.
- Execution of tasks, SQL, Spark, Docker and pip; the regex classifiers of statements; DDL clause stripping.
- Listing, paging and read-only routes; tokens, warehouses, policies, pools, secrets, alerts, SCIM and the other one-branch services.
- React pages and stores, the notebook proxy, TLS, the command line and the scripts.
