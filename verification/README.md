# Models and proofs for dbgen4

This project states in Dafny what the hard parts of the repository do and proves
properties of them for every input, every interleaving and every run. `dafny verify
dfyconfig.toml` checks everything. Nothing here runs the C++ program: the database
server, libpq, the ODBC driver and the file system are parameters that may answer
anything.

How the parts are laid out:

- **The asynchronous facade** (`async_db`). `AsyncDb` is the transition system: one
  caller thread, one worker thread, a one-deep queue, two condition variables, a
  sticky error and the conversation with the server. `AsyncReplay` is the
  specification without threads: what a queue of jobs says to the server, and what the
  calls would say if they were run plainly. `AsyncInvariants` holds what every step
  keeps, `AsyncTheorems` what follows for every reachable state, `AsyncReplies` what each
  answer says about the conversation, `AsyncAnswers` the exact conditions of three promises
  that hold only sometimes, `AsyncWitnesses` runs that meet the bounds. `ParamSnapshot` copies parameter buffers in place.
- **The template engine** (`inja.hpp`). `InjaLexer` says what the lexer computes by
  trying every position, `InjaLexerMachine` is the lexer object with its fast search,
  `InjaLexerTiling` proves progress and tiling, `InjaLexerWords` which tokens the words of
  a region are and exactly what trimming drops. `InjaExpression` is the shunting-yard
  parser as a function, `InjaExpressionParser` its loops. `InjaGrammar` is a grammar in
  levels and the proof that the parser follows it; `InjaExpressionRoundTrip`,
  `InjaParentheses`, `InjaExpressionLeaves` and `InjaExpressionShape` hold what else is
  proved of the parser, `InjaText` joins it to the lexer. `InjaStatements` is
  the statement parser over an arena (positions stand for the code's pointers),
  `InjaStatementParser` the parser object, `InjaStatementRoundTrip` the round trip and
  `InjaStatementTags` which templates are accepted at all. `InjaEvaluator` has a
  recursive evaluator and the stack machine that is proved to agree with it,
  `InjaEvaluatorLaws` the laws of the evaluator.
- **The PostgreSQL runtime**. `PsqlFetch` and `PsqlWindows` (windowed fetch),
  `PsqlBatch` (pipelined batch), `Numerals`, `PsqlDateTime` and `PsqlCells` (text codec
  of cells), `PsqlRendering` (the texts as the server writes and takes them), `StatementOwnership` (who releases a prepared statement).
- **The DB2 runtime**. `Db2Binding`: statement handles and the raw addresses the driver
  keeps.
- **Two more protocols**. `WorkerPool` (the generator's threads) and `ListenHandoff`
  (`on_change` and the listener thread).
- **Printers**. `TimestampPrinter` and `Utf8`.

Where the code and its documentation disagree the model follows the code:

- `exec()` is documented to return only when the previous job has finished
  (src/rtl/async_db.hpp:456-466 and 739-744). The code waits for the queue slot only, and the slot is
  free again as soon as the worker has taken the previous job. The promise is kept if and
  only if `exec()` is called when nothing is queued and the worker is idle:
  `AsyncAnswers.ExecPromiseIffQuiet`; `AsyncWitnesses.ExecReturnsWhileThePreviousJobRuns`
  is a run that breaks it.
- `prepare()` returns a handle although its job was dropped, if and only if an error was
  recorded when the job was to be queued: `AsyncAnswers.NullTaskIffErrorSeen`;
  `AsyncWitnesses.PrepareCanBeDropped` is such a run.
- A `prepare()` that fails is not remembered as an error (src/rtl/async_db.hpp:661-665), so `commit()`
  succeeds after it. A successful `commit()` vouches for everything that was said to the
  database if and only if no `prepare()` since the last one answered with an error:
  `AsyncAnswers.CleanCommit`; `AsyncWitnesses.CommitAfterRefusedPrepare` is a run.
- The destructor of a PostgreSQL query ignores the answer to its DEALLOCATE
  (src/rtl/psql/query.hpp:228-234), and describing a statement sends DEALLOCATE ALL
  (src/rtl/psql/psql_rtl.cpp:454-457). So a statement can be left behind or be gone too early:
  `StatementOwnership.LeftBehindIff` and `DeallocateRefusedIff` say exactly when,
  `StatementOwnership.LeftBehind` and `TakenAway` are runs.
- A PostgreSQL query whose buffers were resized after `prepare()` is told to call
  `prepare()` again (src/rtl/psql/query.hpp:377-386), but its own name is then taken, and it never runs
  again: `StatementOwnership.ResizedNeverRunsAgain`.
- The comment in `execute_batch()` says that the status of rows that were never sent is
  left untouched (src/rtl/psql/query.hpp:503-507). They are cleared first, and zero is the status of an
  accepted row, so such rows read as accepted: `PsqlBatch.Batch.ExecuteBatch`.
- The null flag of an integer, boolean, date, time or guid column is never cleared
  between fetches, so a value can be shown as null: `PsqlWindows.FlagIsRightUnlessStale`
  says exactly when, `PsqlWindows.StaleNull` is an example.
- A second `prepare()` of a DB2 query that fails leaves an object that still counts as
  prepared: `Db2Binding.FailedPrepareStillRuns` and
  `Db2Binding.FailedAllocKeepsTheFreedHandle`; `Db2Binding.NothingMissingIffReady` says
  exactly when the driver has all columns.
- if and for statements that cross are accepted: `InjaStatementTags.AcceptedIffBalanced`
  says exactly which tag sequences are, `InjaStatementTags.AcceptedBeyondNesting` which of
  them do not nest, and `InjaStatementRoundTrip.CrossedIsAccepted` what becomes of the text
  after a crossed pair.
- A minus after a negative number or a string is never read as the operator, so `-1 - 2`
  does not parse as a subtraction: `InjaLexerWords.NoMinusAfter`.
- The date parser ignores what follows the day, so a date that the server marks as BC is
  read as one of our era: `PsqlRendering.EraIsLost`.
- A listener that has ended on an error is still joinable, and the next `on_change()`
  never returns: `ListenHandoff.SecondCallHangs`.

## Model

| member | source | states |
|---|---|---|
| `ParamSnapshot.RestoreReplaces` | src/rtl/async_db.hpp:319-333 | restoring a snapshot into a buffer of the same layout leaves exactly the snapshot, whatever was in the buffer |
| `ParamSnapshot.SnapshotParams` | src/rtl/async_db.hpp:294-317 | the snapshot is the contents of the caller's arrays at that moment |
| `ParamSnapshot.CopyOver` | src/rtl/async_db.hpp:329-330 | copying a column in place overwrites as many elements as there are and leaves the rest |
| `ParamSnapshot.RestoreParams` | src/rtl/async_db.hpp:319-333 | the arrays afterwards hold what the specification of a restore says, column by column, and nothing else changes |
| `AsyncReplay.SyncIsReplay` | src/rtl/async_db.hpp:698-803 | without a failed statement, running the calls plainly, each said by what it asks the database, gives the same conversation as the jobs they post |
| `AsyncReplay.ReplayGrows` | src/rtl/async_db.cpp:57-87 | later jobs only ever add to the conversation |
| `AsyncInvariants.NoLostWakeupKept` | src/rtl/async_db.cpp:62-79 | every step keeps it that a sleeper whose condition holds has a notifier still to come |
| `AsyncInvariants.InOrderKept` | src/rtl/async_db.cpp:89-108 | every step keeps the queue in program order, each job made from its own call |
| `AsyncInvariants.LayoutsKept` | src/rtl/async_db.hpp:639-694 | the caller's buffers and the queries' buffers keep one layout per statement |
| `AsyncInvariants.AgreesKept` | src/rtl/async_db.cpp:57-87 | at every step the conversation plus what the job in hand has still to say is the replay of the jobs taken |
| `AsyncInvariants.ErrorIsFirstKept` | src/rtl/async_db.cpp:156-160 | the sticky error is the first failure since the last end of a transaction |
| `AsyncInvariants.CompleteKept` | src/rtl/async_db.cpp:89-108 | while nothing has failed, every call since the last end of a transaction has been accepted |
| `AsyncInvariants.TransactionsKept` | src/rtl/async_db.cpp:174-212 | what a transaction's end has sent, and that nothing else commits |
| `AsyncInvariants.BoundedKept` | src/rtl/async_db.cpp:89-108 | overrun so far plus statements that can no longer be stopped is at most two |
| `AsyncTheorems.InvKept` | src/rtl/async_db.cpp:39-212 | the whole invariant is kept by every action of either thread |
| `AsyncTheorems.Always` | src/rtl/async_db.cpp:39-212 | the invariant holds in every reachable state |
| `AsyncTheorems.OnlyAcceptedCallsInOrder` | src/rtl/async_db.cpp:57-118 | the server sees the accepted calls in program order and nothing else, under every interleaving |
| `AsyncTheorems.ExecutesWhatWasCalled` | src/rtl/async_db.hpp:698-767 | every executed statement belongs to a submit(), exec() or execute_sync() of that statement and carries the values the caller's buffer held when the call was made |
| `AsyncTheorems.AsyncRefinesSync` | src/rtl/async_db.cpp:57-118 | if no statement failed and all is done, the conversation is that of the synchronous run |
| `AsyncTheorems.ReplyMeans` | src/rtl/async_db.cpp:143-197 | committed, finished and the empty handle are answered exactly in the states that the code tests for; what the other answers mean is in AsyncReplies |
| `AsyncTheorems.CommitTellsTheTruth` | src/rtl/async_db.cpp:174-197 | commit() succeeds only if every call since the last end was accepted and ran, no statement failed when executed or fetched from, and COMMIT came directly after them; a failed prepare() is not counted here |
| `AsyncTheorems.CommitReportsTheFirstFailure` | src/rtl/async_db.cpp:178-190 | after a failure commit() returns the earliest error, ROLLBACK was sent and no COMMIT, and the facade is free of errors |
| `AsyncTheorems.FinishedIsTruthful` | src/rtl/async_db.cpp:143-154 | is_finished() says finished only when everything accepted has run and no error is pending |
| `AsyncTheorems.NullTaskNeedsAnError` | src/rtl/async_db.hpp:639-694 | when prepare() answers with an empty handle, an error is pending and a statement of the transaction has failed |
| `AsyncTheorems.AtMostTwoOverrun` | src/rtl/async_db.cpp:89-108 | after the first failure at most two more statements execute before the error is cleared |
| `AsyncTheorems.NothingPostedAfterError` | src/rtl/async_db.cpp:101-105 | with an error recorded nothing enters the queue but COMMIT, ROLLBACK and a call already waiting |
| `AsyncTheorems.NoWakeupIsLost` | src/rtl/async_db.cpp:62-79 | in every reachable state a sleeper whose condition holds is about to be notified |
| `AsyncTheorems.NeverStuck` | src/rtl/async_db.cpp:39-141 | a state with unfinished work always has a thread that can go on |
| `AsyncTheorems.CallerLowersRank` | src/rtl/async_db.cpp:89-141 | each step of the caller inside a call brings its return nearer |
| `AsyncTheorems.WorkerLowersRank` | src/rtl/async_db.cpp:57-87 | each step of the worker does so too |
| `AsyncTheorems.CallsReturn` | src/rtl/async_db.cpp:57-118 | between two calls the threads take at most as many steps as the rank, plus one for each spurious wakeup, so every call returns |
| `AsyncTheorems.DestructorRunsEverything` | src/rtl/async_db.cpp:39-55 | when the destructor has returned, everything accepted has run, it sent neither COMMIT nor ROLLBACK, and the worker has exited |
| `AsyncReplies.AlwaysInformed` | src/rtl/async_db.hpp:770-839 | in every reachable state the caller's local variable agrees with the last thing that was said to the database for its call |
| `AsyncReplies.RowsAreTheFetch` | src/rtl/async_db.hpp:770-839 | fetch_more() and execute_sync() answer whether the fetch just made found rows, no rows for a statement without results, and after a failure the first error of the transaction |
| `AsyncReplies.PrepareTellsTheOutcome` | src/rtl/async_db.hpp:639-670 | prepare() that was not dropped answers what the server said to its PREPARE |
| `AsyncReplies.EndTellsTheOutcome` | src/rtl/async_db.cpp:174-212 | commit() without an error and rollback() answer what the server said to their command, which is the last of the conversation |
| `AsyncReplies.ExecAnswers` | src/rtl/async_db.hpp:698-767 | exec() answers with the first error of the transaction if one is recorded and else that it was queued; submit() and drain() answer nothing |
| `AsyncReplies.PollAnswers` | src/rtl/async_db.cpp:143-154 | is_finished() answers pending exactly while a job is queued or running, and then the first error of the transaction or finished |
| `AsyncAnswers.AlwaysTold` | src/rtl/async_db.hpp:661-670 | in every reachable state a refused PREPARE of the open transaction was told to the caller, or is about to be |
| `AsyncAnswers.CleanCommit` | src/rtl/async_db.cpp:174-197 | a successful commit() closes a transaction in which nothing failed, if and only if no prepare() since the last one answered with an error |
| `AsyncAnswers.NullTaskIffErrorSeen` | src/rtl/async_db.cpp:101 | prepare() answers with an empty handle if and only if an error was recorded when post_to_worker() looked |
| `AsyncAnswers.NullTaskForeseen` | src/rtl/async_db.hpp:639-694 | with an error recorded before the call it always does, with none and nothing left to run it never does |
| `AsyncAnswers.QuietBeforeExec` | src/rtl/async_db.hpp:745-763 | called when nothing is queued and the worker is idle, exec() and submit() return with every earlier job finished, in every run |
| `AsyncAnswers.BusyBeforeExec` | src/rtl/async_db.hpp:745-763 | called otherwise, some run lets them return with an earlier job unfinished |
| `AsyncAnswers.ExecPromiseIffQuiet` | src/rtl/async_db.hpp:456-460 | the documented promise of exec() holds if and only if it is called when nothing is queued and the worker is idle |
| `AsyncAnswers.EarlierJobsHaveRun` | src/rtl/async_db.cpp:137-154 | then the conversation already holds all that was accepted before the call |
| `AsyncWitnesses.ExecReturnsWhileThePreviousJobRuns` | src/rtl/async_db.hpp:739-745 | a run in which exec() has returned and the previous job is still running |
| `AsyncWitnesses.OverrunOfTwoHappens` | src/rtl/async_db.cpp:101-105 | a run in which two statements execute after the first failure |
| `AsyncWitnesses.PrepareCanBeDropped` | src/rtl/async_db.hpp:639-694 | a run in which prepare() hands out a handle with no task behind it |
| `AsyncWitnesses.CommitAfterRefusedPrepare` | src/rtl/async_db.hpp:661-665 | a run in which prepare() answers with an error and commit() then succeeds |
| `InjaExpression.AddOperator` | src/inja/inja.hpp:1699-1712 | an operator taken off the stack leaves fewer behind; it fails when operands are missing |
| `InjaExpression.Compound` | src/inja/inja.hpp:1848-2043 | a parenthesis, call or pipe moves forward and stays inside the tokens |
| `InjaExpression.Loop` | src/inja/inja.hpp:1768-2061 | the parser stops at or after where it started, inside the tokens |
| `InjaExpression.CallArguments` | src/inja/inja.hpp:1852-1860 | arguments end at a right parenthesis |
| `InjaExpressionParser.CloseOperators` | src/inja/inja.hpp:1980-1985 | the loop that closes operators computes the recursive reduction |
| `InjaExpressionParser.ParseArguments` | src/inja/inja.hpp:1852-1860 | the do-while over arguments computes the recursive reading |
| `InjaExpressionParser.ParseCompound` | src/inja/inja.hpp:1848-2043 | parentheses, calls and pipes read by the methods are those of the functions |
| `InjaExpressionParser.ConcludeExpression` | src/inja/inja.hpp:2050-2060 | closing all operators leaves one operand, none, or a malformed expression |
| `InjaExpressionParser.ParseExpression` | src/inja/inja.hpp:1768-2061 | the loop over tokens computes the recursive parser |
| `InjaExpressionRoundTrip.SpineCloses` | src/inja/inja.hpp:1699-1712 | closing the operators of a right spine puts the tree together again |
| `InjaExpressionRoundTrip.FeedWhole` | src/inja/inja.hpp:1768-2061 | anywhere in a token sequence, a printed expression followed by a token that ends it parses to that expression |
| `InjaExpressionRoundTrip.RoundTrip` | src/inja/inja.hpp:604-736 | printed with the parentheses the operator table asks for, every tree of operators (also not), calls, literals and variables parses to itself; that the table is the right one is InjaGrammar.DerivedIsParsed |
| `InjaExpressionRoundTrip.PrintsDiffer` | src/inja/inja.hpp:604-736 | different trees never print alike |
| `InjaGrammar.TableAgrees` | src/inja/inja.hpp:604-736 | levels of the grammar and operator table agree: an operator closes its left operand and leaves its right one open |
| `InjaGrammar.OpenCloses` | src/inja/inja.hpp:1699-1712 | closing the operators that a derived sequence leaves open builds the tree of its derivation |
| `InjaGrammar.ReadWhole` | src/inja/inja.hpp:1768-2061 | anywhere in a token sequence, a derived sequence followed by a token that ends it parses to the tree of its derivation |
| `InjaGrammar.DerivedIsParsed` | src/inja/inja.hpp:604-736 | every sequence derivable in the grammar (and/or; comparisons and in; + and -; *, / and % with not; ^ to the right; dots; calls, parentheses, pipes and leaves) parses to the tree derived; the grammar names operators only |
| `InjaGrammar.OneTreePerSequence` | src/inja/inja.hpp:1768-2061 | the grammar is unambiguous: two derivations of one sequence have one tree |
| `InjaGrammar.TwoOperatorsGroup` | src/inja/inja.hpp:604-736 | how any two operators in a row group: a - b - c to the left, a ^ b ^ c to the right, a + b * c by the product |
| `InjaGrammar.NotGroups` | src/inja/inja.hpp:611-617 | not takes a power or a path as its operand and nothing wider |
| `InjaExpressionShape.ParsedIsSound` | src/inja/inja.hpp:1768-2061 | whatever the tokens, in an expression that is returned every operator has its number of operands, every function exists and no keyword is a variable |
| `InjaExpressionShape.CompoundSound` | src/inja/inja.hpp:1848-2043 | parentheses, calls and pipes only ever push such expressions |
| `InjaText.TextToTree` | src/inja/inja.hpp:1768-2061 | from characters to the tree: an expression region whose words spell out a derivation, scanned and then parsed, gives the tree of that derivation |
| `InjaParentheses.LeftPairIsNeeded` | src/inja/inja.hpp:604-736 | without the parentheses printed around its left operand, no operator's printed form parses to it |
| `InjaParentheses.RightPairIsNeeded` | src/inja/inja.hpp:604-736 | nor without those around its right operand, or around the operand of not |
| `InjaParentheses.BareRightFails` | src/inja/inja.hpp:1980-1985 | where such an operand starts with a not that closes the operator before it, the parse fails |
| `InjaExpressionLeaves.ReduceLeaves` | src/inja/inja.hpp:1980-1985 | closing operators neither moves, loses nor doubles an operand |
| `InjaExpressionLeaves.LoopLeaves` | src/inja/inja.hpp:1768-2061 | from any point of the loop, the operands still to be read are appended to the leaves |
| `InjaExpressionLeaves.LeavesAreTheOperands` | src/inja/inja.hpp:1768-2061 | on any tokens, the leaves of the parsed tree are the operands an independent left-to-right scan finds, in order |
| `InjaExpressionLeaves.ReadsIsUnique` | src/inja/inja.hpp:1768-2061 | that scan has one result only |
| `InjaStatements.TurnValid` | src/inja/inja.hpp:2246-2319 | a turn of the main loop moves forward and leaves every stored position valid |
| `InjaStatementParser.TemplateParser.CloseOpenIf` | src/inja/inja.hpp:2104-2113 | the endif loop pops the nested ifs and then their own |
| `InjaStatementParser.TemplateParser.ReadExpression` | src/inja/inja.hpp:1762-1766 | an expression that must end in the closing token, or which error |
| `InjaStatementParser.TemplateParser.StartIf` | src/inja/inja.hpp:2067-2078 | the object's state follows the specification of if |
| `InjaStatementParser.TemplateParser.StartElse` | src/inja/inja.hpp:2079-2101 | ... of else and else if |
| `InjaStatementParser.TemplateParser.StartFor` | src/inja/inja.hpp:2142-2188 | ... of for over arrays and objects |
| `InjaStatementParser.TemplateParser.DoSet` | src/inja/inja.hpp:2221-2238 | ... of set |
| `InjaStatementParser.TemplateParser.ParseStatement` | src/inja/inja.hpp:2063-2244 | ... of any statement modelled |
| `InjaStatementParser.TemplateParser.ParseTurn` | src/inja/inja.hpp:2251-2314 | ... of one turn of the main loop |
| `InjaStatementParser.TemplateParser.ParseInto` | src/inja/inja.hpp:2246-2319 | the object ends in the template the specification computes, or with its error |
| `InjaStatementRoundTrip.ShowsUnique` | src/inja/inja.hpp:2063-2114 | a block of the arena stands for one list of statements only |
| `InjaStatementRoundTrip.RunStmts` | src/inja/inja.hpp:2246-2319 | reading a printed list of statements appends their nodes to the current block and changes nothing else that was there |
| `InjaStatementRoundTrip.CommentLeavesNothing` | src/inja/inja.hpp:2305-2310 | a comment adds nothing to the template, wherever it stands |
| `InjaStatementRoundTrip.RunElse` | src/inja/inja.hpp:2079-2101 | reading an else part fills the else of the innermost if, and endif will pop exactly the nested ifs it opened |
| `InjaStatementRoundTrip.TemplateRoundTrip` | src/inja/inja.hpp:2063-2319 | every well-nested template of text, output, if / else if / else, for and set is rebuilt from its printed form, with all stacks empty |
| `InjaStatementRoundTrip.TemplatesPrintApart` | src/inja/inja.hpp:2063-2319 | different templates never print alike |
| `InjaStatementRoundTrip.RunGrounded` | src/inja/inja.hpp:2104-2113 | the bottom entry of the if stack is never a nested one |
| `InjaStatementRoundTrip.EndifNeverInspectsAnEmptyStack` | src/inja/inja.hpp:2107 | on no token sequence does the endif loop look at an empty stack |
| `InjaStatementRoundTrip.CrossedIsAccepted` | src/inja/inja.hpp:2107-2113 | in an if closed inside its loop, the text after both lands in the if |
| `InjaStatementTags.TurnFollows` | src/inja/inja.hpp:2246-2319 | each turn goes on where the tag ends and counts its depth, or stops because the tag does not fit |
| `InjaStatementTags.RunIffBalanced` | src/inja/inja.hpp:2246-2319 | from any point of the loop, the tags still to come decide whether the parse succeeds |
| `InjaStatementTags.AcceptedIffBalanced` | src/inja/inja.hpp:2063-2319 | a template is accepted if and only if every tag can be read, the if tags balance and the for tags balance, each on their own |
| `InjaStatementTags.ErrorIsTheComplaint` | src/inja/inja.hpp:2063-2319 | if every tag can be read, the error reported is the one of the first tag without its opener, else of the if or for left open |
| `InjaStatementTags.NestedIffNoneCrosses` | src/inja/inja.hpp:2102-2198 | tags nest if and only if both kinds balance and no else, endif or endfor passes an opener of the other kind |
| `InjaStatementTags.AcceptedBeyondNesting` | src/inja/inja.hpp:2102-2198 | what is accepted without nesting are exactly the balanced templates whose tags cross |
| `InjaEvaluator.Renderer.VisitData` | src/inja/inja.hpp:2595-2616 | one entry is pushed, and a name with it exactly if the entry is null |
| `InjaEvaluator.Renderer.VisitArguments` | src/inja/inja.hpp:2519 | the arguments are visited left to right, up to the first that throws |
| `InjaEvaluator.Renderer.PopArguments` | src/inja/inja.hpp:2521-2545 | results come off right to left; the last missing variable is the one reported, and no stack is popped empty |
| `InjaEvaluator.Renderer.GetArguments` | src/inja/inja.hpp:2509-2545 | both together, leaving the stacks as they were |
| `InjaEvaluator.Renderer.VisitStrict` | src/inja/inja.hpp:2618-2748 | an operation pushes the value the recursive evaluator gives, or throws its error |
| `InjaEvaluator.Renderer.VisitLogical` | src/inja/inja.hpp:2628-2637 | and / or push what the recursive evaluator says, evaluating their right side only when needed; what that is: InjaEvaluatorLaws |
| `InjaEvaluator.Renderer.VisitDefault` | src/inja/inja.hpp:2781-2786 | default() evaluates its second argument only if the first is missing |
| `InjaEvaluator.Renderer.Visit` | src/inja/inja.hpp:2593-2786 | visiting any expression pushes exactly one entry, one name exactly if it is null, and the value is the recursive evaluator's |
| `InjaEvaluator.Renderer.EvalExpressionList` | src/inja/inja.hpp:2472-2494 | the errors "malformed expression" and "could not be evaluated" never occur, and the stacks end empty |
| `InjaEvaluator.OnlyVariablesAreMissing` | src/inja/inja.hpp:2595-2616 | only a variable without a value gives a null entry |
| `InjaEvaluator.NotFoundIsALeaf` | src/inja/inja.hpp:2533-2543 | the variable reported as not found is a leaf of the expression and has no value |
| `InjaEvaluatorLaws.FalseValues` | src/inja/inja.hpp:2445-2451 | exactly null, false, zero, the empty array and the empty object count as false |
| `InjaEvaluatorLaws.LogicOnValues` | src/inja/inja.hpp:2628-2637 | on values, and is conjunction and or is disjunction of their truth |
| `InjaEvaluatorLaws.ShortCircuit` | src/inja/inja.hpp:2628-2637 | a left side that decides the result hides the right one, errors included |
| `InjaEvaluatorLaws.LeftToTheRight` | src/inja/inja.hpp:2628-2637 | a left side that does not decide leaves the truth, or the error, of the right side |
| `InjaEvaluatorLaws.LeftErrorWins` | src/inja/inja.hpp:2628-2637 | an error or a missing variable on the left is the result |
| `InjaEvaluatorLaws.NotValue` | src/inja/inja.hpp:2622-2627 | not negates the truth of its operand and passes errors on |
| `InjaEvaluatorLaws.DeMorgan` | src/inja/inja.hpp:2622-2637 | not (a and b) is (not a) or (not b), and dually, errors of either side included |
| `InjaEvaluatorLaws.DefaultIs` | src/inja/inja.hpp:2781-2786 | default(a, b) is a, or b exactly when a is a variable without value |
| `InjaEvaluatorLaws.InnermostWins` | src/inja/inja.hpp:2595-2616 | a loop or set variable hides the input of the same name, and that a callback |
| `InjaEvaluatorLaws.BinaryIs` | src/inja/inja.hpp:2509-2545 | an operation gets its operands in order; an error on the left, then on the right, then a missing right, then a missing left operand is what is reported |
| `InjaLexer.OpenCharsCover` | src/inja/inja.hpp:1040-1051 | the opening characters contain the first character of every opening delimiter, each once |
| `InjaLexer.OpensHere` | src/inja/inja.hpp:1476-1536 | the position found is the leftmost at which an opening delimiter stands |
| `InjaLexerMachine.FindFirstOf` | src/inja/inja.hpp:1477 | the first of the given characters from a position on |
| `InjaLexerMachine.FirstOpenSkips` | src/inja/inja.hpp:1477-1484 | jumping over other characters skips no opening |
| `InjaLexerMachine.Lexer.Start` | src/inja/inja.hpp:1452-1462 | the lexer starts in text, after a byte order mark |
| `InjaLexerMachine.Lexer.FindOpening` | src/inja/inja.hpp:1476-1536 | the fast search stops at the same leftmost opening as trying every position |
| `InjaLexerMachine.Lexer.ScanId` | src/inja/inja.hpp:1349-1359 | an identifier is the longest run of its characters |
| `InjaLexerMachine.Lexer.ScanNumber` | src/inja/inja.hpp:1361-1377 | a number likewise, with signs only after an exponent |
| `InjaLexerMachine.Lexer.ScanString` | src/inja/inja.hpp:1379-1394 | a string ends at its first unescaped quote, or with the input |
| `InjaLexerMachine.Lexer.ScanLexeme` | src/inja/inja.hpp:1273-1346 | the token of a body, and whether a minus after it is an operator |
| `InjaLexerMachine.Lexer.ScanBody` | src/inja/inja.hpp:1235-1347 | blanks are skipped, a close leaves the body, anything else is a lexeme |
| `InjaLexerMachine.Lexer.ScanText` | src/inja/inja.hpp:1474-1546 | text up to the leftmost opening, trimmed if asked for |
| `InjaLexerMachine.Lexer.ScanComment` | src/inja/inja.hpp:1600-1620 | a comment ends at the first closing delimiter |
| `InjaLexerMachine.Lexer.ClearFinalLineIfWhitespace` | src/inja/inja.hpp:1425-1439 | blanks after the last newline are dropped, and nothing if something else stands there |
| `InjaLexerMachine.Lexer.ScanToken` | src/inja/inja.hpp:1464-1622 | the lexer object computes the naive lexer, and every token but the end moves it forward |
| `InjaLexerTiling.ScanProgress` | src/inja/inja.hpp:1464-1622 | every scan but the last strictly advances inside the input |
| `InjaLexerTiling.ScanTiles` | src/inja/inja.hpp:1464-1622 | without trimming, text has no opening in it, an opening is its delimiter, a body is left exactly after its close |
| `InjaLexerTiling.TokensTileTheInput` | src/inja/inja.hpp:1464-1622 | without trimming, text tokens and regions side by side are the input |
| `InjaLexerTiling.TrimmingDropsOnlyBlanks` | src/inja/inja.hpp:1398-1439 | with any trimming, what is dropped is blank |
| `InjaLexerWords.WordIsScanned` | src/inja/inja.hpp:1273-1346 | a name, number, string or punctuation mark is scanned as the token it spells, to its end |
| `InjaLexerWords.WordsAreScanned` | src/inja/inja.hpp:1235-1347 | the words of a region, with blanks where they would run together, are scanned one by one as the tokens they spell |
| `InjaLexerWords.RegionIsScanned` | src/inja/inja.hpp:1464-1622 | a region is scanned as its opening, its words and its closing token, and the text goes on behind what the closing drops |
| `InjaLexerWords.OpeningIsScanned` | src/inja/inja.hpp:1486-1594 | an opening is the token of its delimiter, the longer variant winning, directly or after the text before it |
| `InjaLexerWords.ClosingIsScanned` | src/inja/inja.hpp:1247-1264 | a closing drops nothing, all blanks or the rest of its line, exactly as its variant and trim_blocks ask |
| `InjaLexerWords.CommentIsScanned` | src/inja/inja.hpp:1600-1620 | a comment is one token up to its first close, and drops the rest of its line exactly if asked to |
| `InjaLexerWords.NoMinusAfter` | src/inja/inja.hpp:1277-1286 | after a negative number or a string a minus is never the operator |
| `InjaLexerWords.TextBeforeOpening` | src/inja/inja.hpp:1476-1546 | the text before the leftmost opening is whole, unless stripping is asked for and its last line is blank: then exactly without that line's blanks |
| `Numerals.FixedValue` | src/rtl/psql/query.cpp:153-160 | a number printed with enough digits reads back |
| `PsqlDateTime.ReadDigitsAt` | src/rtl/psql/query.cpp:29-42 | exactly n digits are read, and a uint16_t does not wrap around |
| `PsqlDateTime.ReadFractionAt` | src/rtl/psql/query.cpp:52-64 | a fraction of any length scaled to nanoseconds, without wrapping around |
| `PsqlDateTime.ReadTripleAt` | src/rtl/psql/query.cpp:70-94 | three numbers and the separators between them |
| `PsqlDateTime.ReadTimestampText` | src/rtl/psql/query.cpp:96-120 | the statements of parse_timestamp compute its specification |
| `PsqlDateTime.ParsedInRange` | src/rtl/psql/query.cpp:70-120 | nothing outside the printed widths is ever read |
| `PsqlDateTime.DateRoundTrip` | src/rtl/psql/query.cpp:153 | a date reads back exactly if its fields have the printed widths |
| `PsqlDateTime.TimeRoundTrip` | src/rtl/psql/query.cpp:155 | a time likewise |
| `PsqlDateTime.TimestampRoundTrip` | src/rtl/psql/query.cpp:157-160 | a timestamp likewise |
| `PsqlCells.ByteaRoundTrip` | src/rtl/psql/query.cpp:167-189 | encoded bytes decode to themselves, into a smaller capacity to their prefix |
| `PsqlCells.DecodeInto` | src/rtl/psql/query.cpp:167-180 | decoding in place fills the slot's start and leaves the rest |
| `PsqlCells.EncodeFrom` | src/rtl/psql/query.cpp:182-189 | the loop over bytes computes the encoding |
| `PsqlCells.GuidRoundTrip` | src/rtl/psql/query.cpp:122-162 | every 128-bit guid reads back |
| `PsqlCells.ParseGuidText` | src/rtl/psql/query.cpp:122-151 | the loop over pairs and hyphens computes its specification |
| `PsqlCells.IntRoundTrip` | src/rtl/psql/query.hpp:126-132 | an integer reads back exactly if the column's type holds it |
| `PsqlCells.CellRoundTrip` | src/rtl/psql/query.cpp:285-318 | store_value after load_value restores every cell a slot can hold, dates and times exactly within the printed widths; that the texts are the server's is in PsqlRendering |
| `PsqlRendering.ServerTextIsRead` | src/rtl/psql/query.cpp:196-300 | every text that PostgreSQL writes for a value (t and f, decimal integers, ISO dates, times and timestamps with blank or T, zero to nine digits of fraction and a zone, hexadecimal in either case, text) is stored as that value, cut to the column, or refused exactly if the integer is out of range |
| `PsqlRendering.HeldIsRead` | src/rtl/psql/query.cpp:285-300 | what the column can hold is stored unchanged |
| `PsqlRendering.SentTextIsUnderstood` | src/rtl/psql/query.cpp:248-318 | every cell is sent as a text that writes its value, booleans as whole words, dates and times within the printed widths |
| `PsqlRendering.TheTableIsSeen` | src/rtl/psql/query.hpp:571-617 | a caller who fetches to the end sees the server's table cell by cell: its values, the lengths of its strings, and null where it is null or does not fit |
| `PsqlRendering.EraIsLost` | src/rtl/psql/query.cpp:70-82 | a date before our era is read as one of ours |
| `PsqlRendering.LongYearsAreNull` | src/rtl/psql/query.cpp:29-42 | a year of five digits or more is no date: the cell is shown as null |
| `PsqlFetch.Query.SetBufferSize` | src/rtl/result_root.hpp:43-48 | zero rows become one, the storage is new, and the generation counts on |
| `PsqlFetch.Query.Execute` | src/rtl/psql/query.hpp:390-437 | success rewinds to the new rows, whatever their width; a failure keeps the old result set |
| `PsqlFetch.Query.Fetch` | src/rtl/psql/query.hpp:571-617 | the next rows are copied into the window, the count is reported, or which error |
| `PsqlFetch.Query.CopyRow` | src/rtl/psql/query.hpp:588-606 | one row is copied column by column; only strings write their indicator on success |
| `PsqlWindows.TrueThenFalse` | src/rtl/psql/query.hpp:571-617 | fetch returns true exactly ceil(N / b) times and then false |
| `PsqlWindows.SeenAt` | src/rtl/psql/query.hpp:583-606 | row r of window k is source row k * b + r |
| `PsqlWindows.WindowsAreTheResult` | src/rtl/psql/query.hpp:571-617 | the occupied windows side by side are all source rows, once and in order, with their values |
| `PsqlWindows.FetchToTheEnd` | src/rtl/psql/query.hpp:566-570 | a caller's loop over the query object makes that many rounds and sees exactly those windows |
| `PsqlWindows.StringsAreRight` | src/rtl/psql/query.cpp:214-226 | string cells are cut to the column size, with length and null flag right |
| `PsqlWindows.FlagsStick` | src/rtl/psql/query.cpp:196-212 | in a column that is no string a null flag once set stays |
| `PsqlWindows.FlagIsRightUnlessStale` | src/rtl/psql/query.hpp:591-604 | there a null flag is right if and only if the cell is null or none before it in its slot was |
| `PsqlWindows.FirstWindowIsRight` | src/rtl/psql/query.hpp:591-604 | in the first window of a fresh buffer every null flag is right |
| `PsqlWindows.StaleNull` | src/rtl/psql/query.cpp:196-212 | a result set whose second integer is shown as null |
| `PsqlBatch.RepliesLength` | src/rtl/psql/query.hpp:528-545 | two replies for every row sent and two for the sync |
| `PsqlBatch.Batch.SendRows` | src/rtl/psql/query.hpp:508-522 | rows are sent in order until one cannot be |
| `PsqlBatch.Batch.ReadRow` | src/rtl/psql/query.hpp:528-539 | one row's replies are consumed and its status set |
| `PsqlBatch.Batch.ReadReplies` | src/rtl/psql/query.hpp:525-545 | exactly the replies are consumed, statuses are an accepted prefix and a refused rest |
| `PsqlBatch.Batch.ExecuteBatch` | src/rtl/psql/query.hpp:492-564 | success if and only if every row was sent and accepted, else the right error; the connection is idle again in every case |
| `PsqlBatch.StatusIsTheAnswer` | src/rtl/psql/query.hpp:531-534 | a row sent has the status of an accepted row exactly if the server did not refuse it |
| `PsqlBatch.MarshalRow` | src/rtl/psql/query.hpp:304-324 | the texts of a row, and no text for a null |
| `StatementOwnership.OneOwner` | src/rtl/psql/query.hpp:213-266 | no two live objects own the same statement, over any run and whatever the server answers |
| `StatementOwnership.SentExactlyOnce` | src/rtl/psql/query.hpp:228-234 | a prepared statement has either a live owner and no DEALLOCATE, or none and exactly one |
| `StatementOwnership.SentByTheOwner` | src/rtl/psql/query.hpp:228-266 | it is the owner's destructor that sends it, also after moves |
| `StatementOwnership.DeallocateRefusedIff` | src/rtl/psql/query.hpp:228-234 | a destructor's DEALLOCATE is refused if and only if the transaction has failed, a DEALLOCATE ALL came after the prepare, or the server refuses it of its own accord |
| `StatementOwnership.LeftBehindIff` | src/rtl/psql/query.hpp:228-234 | a statement stays on the server without an owner if and only if its DEALLOCATE was refused and no DEALLOCATE ALL was carried out since it was prepared |
| `StatementOwnership.WhatIsLeftAtTheEnd` | src/rtl/psql/query.hpp:228-234 | with all objects gone, the server has no statement left if and only if that happened to none |
| `StatementOwnership.LeftBehind` | src/rtl/psql/query.hpp:228-234 | a run that leaves a statement behind |
| `StatementOwnership.TakenAway` | src/rtl/psql/psql_rtl.cpp:454-457 | a run in which describing a statement takes a live query's statement away |
| `StatementOwnership.SecondPrepareIff` | src/rtl/psql/query.hpp:329-363 | a second prepare() of an object is accepted only after a DEALLOCATE ALL; otherwise it fails the transaction and changes nothing |
| `StatementOwnership.MovePassesOwnership` | src/rtl/psql/query.hpp:248-265 | a move gives the target what the source owned and leaves the source nothing |
| `StatementOwnership.ResizedNeverRunsAgain` | src/rtl/psql/query.hpp:374-388 | a query resized after prepare() never runs again in any run without DEALLOCATE ALL |
| `StatementOwnership.RunsFromPrepareToResize` | src/rtl/psql/query.hpp:374-437 | a query runs exactly from a prepare() that the server accepted until it is resized, moved away or destroyed |
| `Db2Binding.DriverFindsCurrentStorage` | src/rtl/db2/query.hpp:262-273 | whenever execute() or fetch() reaches the driver, every address in it (columns, indicators, status array) is in current storage and the counters are this object's |
| `Db2Binding.NothingMissingIffReady` | src/rtl/db2/query.hpp:156-251 | then no column is missing if and only if the last prepare() succeeded or the statement has no buffers; after success the counters and, for a batch, the status array are bound |
| `Db2Binding.HandlesAreOwnedOnce` | src/rtl/db2/query.hpp:109-148 | no handle is freed twice, used after it was freed, shared or left behind |
| `Db2Binding.ResizeKeepsTheDriverOut` | src/rtl/parameter_root.cpp:6-11 | after a resize nothing reaches the driver until the next prepare() |
| `Db2Binding.PrepareBinds` | src/rtl/db2/query.hpp:156-251 | prepare() binds only the object's own current storage, wherever it fails |
| `Db2Binding.MoveRebinds` | src/rtl/db2/query.hpp:109-144 | the move constructor leaves no address of the source in the driver |
| `Db2Binding.FailedAllocKeepsTheFreedHandle` | src/rtl/db2/query.hpp:161-165 | if the allocation fails, the freed handle is used and freed again |
| `Db2Binding.FailedPrepareStillRuns` | src/rtl/db2/query.hpp:168-235 | wherever prepare() fails after the allocation on an object that could run, the next execute() reaches the driver with a column missing |
| `Db2Binding.FailedPrepareHappens` | src/rtl/db2/query.hpp:156-192 | a run that gets there |
| `WorkerPool.NeverTwice` | src/programs/appl.cpp:83-138 | no file is processed twice or by two workers at once, under every interleaving |
| `WorkerPool.EveryFileOnce` | src/programs/appl.cpp:83-138 | if any worker connected, every file is processed exactly once and the counts add up to the number of files |
| `WorkerPool.NothingWithoutConnection` | src/programs/appl.cpp:94-101 | if none connected, nothing is processed and an error is reported |
| `WorkerPool.FirstErrorIsFirst` | src/programs/appl.cpp:116-121 | the status reported is the first recorded under the mutex that is not success; that every failure is recorded is EveryFailureIsRecorded |
| `WorkerPool.EveryFailureIsRecorded` | src/programs/appl.cpp:94-121 | under every schedule, when all workers have finished, what was recorded is the error of every failed file and one connection error for every refused connection, no more and no less |
| `WorkerPool.SuccessIffNothingFailed` | src/programs/appl.cpp:94-121 | the generator reports success if and only if no connection was refused and no file failed |
| `WorkerPool.NeverStuck` | src/programs/appl.cpp:193-217 | some worker can always go on until all have finished |
| `WorkerPool.StepsLowerRank` | src/programs/appl.cpp:107-130 | every run is finite, so the joins return |
| `ListenHandoff.OneThreadInLibpq` | src/rtl/psql/psql_rtl.cpp:286-402 | at most one thread is in a libpq call on the listening connection, and only while it is open |
| `ListenHandoff.ClosedAfterTheListener` | src/rtl/psql/psql_rtl.cpp:121-142 | the connection is closed only when no listener runs |
| `ListenHandoff.SuccessMeansListening` | src/rtl/psql/psql_rtl.cpp:420-436 | on_change() succeeds only after LISTEN for its own channel succeeded, and its handler is in place |
| `ListenHandoff.AnswerIsTheListen` | src/rtl/psql/psql_rtl.cpp:378-436 | on_change() that waited answers the result of the one LISTEN run since it queued its own, for its channel; any other answer is a failure to set up |
| `ListenHandoff.AnsweredAtOnce` | src/rtl/psql/psql_rtl.cpp:420-436 | a caller that is awake and whose LISTEN has run answers at its next step |
| `ListenHandoff.RoutedToTheNewest` | src/rtl/psql/psql_rtl.cpp:357-374 | a notification goes to the handler of the latest successful call for its channel |
| `ListenHandoff.EveryNotificationIsRouted` | src/rtl/psql/psql_rtl.cpp:357-374 | in every run the notifications routed are those the library handed out, in order, but for the one in hand |
| `ListenHandoff.ReadableIsRead` | src/rtl/psql/psql_rtl.cpp:350-357 | a socket that becomes readable is read and the library asked for notifications in the listener's next two steps |
| `ListenHandoff.SleeperIsUnanswered` | src/rtl/psql/psql_rtl.cpp:378-402 | no wakeup is lost |
| `ListenHandoff.AnswerableIffListenerLives` | src/rtl/psql/psql_rtl.cpp:334-376 | a waiting caller can still be answered if and only if the listener has not ended |
| `ListenHandoff.SecondCallHangs` | src/rtl/psql/psql_rtl.cpp:286-288 | a run in which the listener ended on an error and the next call waits for ever |
| `TimestampPrinter.WrittenLen` | src/rtl/rtl_fmt.hpp:32-36 | never more than the buffer holds, and the whole text if it fits |
| `TimestampPrinter.Snprintf` | src/rtl/rtl_fmt.hpp:61 | as much of the text as fits, a terminator, and nothing before it changed |
| `TimestampPrinter.TrimFraction` | src/rtl/rtl_fmt.hpp:50-54 | the length without trailing zeros, one digit kept |
| `TimestampPrinter.AppendFraction` | src/rtl/rtl_fmt.hpp:57-65 | the fraction is appended and trimmed in place |
| `TimestampPrinter.FormatInBuffer` | src/rtl/rtl_fmt.hpp:109-133 | the buffer ends with exactly the printed timestamp |
| `TimestampPrinter.BufferIsWideEnough` | src/rtl/rtl_fmt.hpp:118 | no timestamp that can be stored is cut by the 48 characters, whatever its fields |
| `TimestampPrinter.NoDanglingDot` | src/rtl/rtl_fmt.hpp:50-54 | at least one fraction digit is left and no other trailing zero |
| `TimestampPrinter.PrintedRoundTrip` | src/rtl/rtl_fmt.hpp:109-133 | parse_timestamp reads the trimmed text back exactly if the fields have the printed widths |
| `Utf8.ToUtf8` | src/dbgen4/runtime_support/utf8.hpp:36-72 | the loop computes the encoding character by character |
| `Utf8.PushChar` | src/dbgen4/runtime_support/utf8.hpp:45-68 | one to four bytes are pushed |
| `Utf8.FirstReads` | src/dbgen4/runtime_support/utf8.hpp:45-68 | what a strict decoder makes of one encoded character |
| `Utf8.RoundTrip` | src/dbgen4/runtime_support/utf8.hpp:36-72 | decoding by RFC 3629 gives the characters back if and only if all are Unicode scalar values |
| `Utf8.OutsideUnicode` | src/dbgen4/runtime_support/utf8.hpp:64-68 | anything above 0x10FFFF becomes U+FFFD; a surrogate makes the text undecodable |
| `Utf8.EncodedLength` | src/dbgen4/runtime_support/utf8.hpp:36-72 | between n and 4n bytes |
| `Utf8.EncodingIsInjective` | src/dbgen4/runtime_support/utf8.hpp:36-72 | different texts have different encodings |

## Left out

- `async_db::cancel()`: it acts on a running job outside the lock, and what it does depends on the backend and on timing.
- Several caller threads on one `async_db`: its list of tasks is not guarded, so the model has one caller.
- The server as a nondeterministic program: it is an arbitrary function from the conversation so far to the next answer.
- A row-returning statement prepared while an error is pending: the code reads through the null task there (src/rtl/async_db.hpp:691); the model hands out the empty handle as for other statements.
- Time: a job is taken to end, and `poll()` to return; no bound in seconds is stated.
- Statements `block`, `include` and `extends` of the template engine: they read other templates; the model rejects them as unknown statements.
- Literals: the model keeps the tokens of a literal; whether their text is valid JSON is the JSON library's business, so a bracket with a parenthesis inside is a node here and an error there.
- InjaEvaluator.Renderer.Visit: leaves out the dot operator and `super`, whose operands are not values, and takes the value of every other operation and callback from an arbitrary function.
- The loop and set statements of the renderer, output formatting and HTML escaping: straight-line use of the JSON library.
- InjaLexerMachine.Lexer.ScanToken: takes the delimiters to be non-empty, as the code does without checking it.
- InjaText.TextToTree: joins lexer and parser for one expression region; for statements and whole templates the two are proved separately.
- InjaGrammar.DerivedIsParsed: says nothing of sequences that the grammar does not derive; some of them, such as two operands followed by their operator, the parser takes as well.
- InjaParentheses.LeftPairIsNeeded: is about the printed form of the operator itself, not about that form inside a larger one.
- Floating-point cells and intervals: the first are converted by the C++ library, the second not at all.
- Integer parsing in PsqlCells.IntRoundTrip: `std::from_chars` is modelled by its documented behaviour.
- Query objects of both runtimes are records in a world keyed by address, because what is proved is about runs over many objects; update in place and the moved-from string are not modelled beyond that.
- PsqlBatch.Batch.ExecuteBatch: whether a refused batch leaves rows behind is the server's transaction handling; the model says what the client reads and reports.
- DB2 row counts beyond the buffer, connection handling, `refresh_statistics`, and the type and SQLSTATE tables: finite lookups or checks on a driver that does not keep its contract.
- ListenHandoff.AnswerableIffListenerLives: one caller and one connect for each object, since `stop_listen_` is never reset.
- WorkerPool.EveryFileOnce: what happens inside the processing of one file, and the measured times.
- The wrap-around of the 64-bit counters of statement names, generations and files.
- YAML loading, the command line, logging, file writing and the generated code's templates: plumbing over other libraries.
- The Windows branch of the UTF-8 conversion.
