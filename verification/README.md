# Proofs about SQLite's statistics, parsers and test harness

This project models eight pieces of SQLite in Dafny and proves what they promise.

**ANALYZE** (`IndexRows`, `Reservoir`, `StatInvariants`, `StatSteps`, `Estimates`, `Accumulator`, `IndexScan`,
`AnalyzeIndex`, `StatText`, with `Arith` and `Options`). One pass over a sorted index keeps three counters per column and a bounded
reservoir of sample rows whose counts are filled in only when their prefix group ends. The counters get a meaning that
mentions no scan (cardinalities of sets of rows). The accumulator object then has to reproduce it exactly:
`AnalyzeIndex.AnalyzeIndex` runs the emitted scan loop and the accumulator together and returns the `sqlite_stat1` numbers
and the `sqlite_stat4` rows. Every sample's counts are exact, samples ascend, and every group of rows that share a
prefix has a sample, unless the reservoir is full of samples kept for groups at least as large. That last fact is
what "include samples with large nEq values" comes to. Columns may be ascending or descending: a value is represented
by its rank in the direction of its column, and NULL comes first or last accordingly.

**The FTS5 query parser** (`Fts5Tables`, `Fts5Lookup`, `Fts5Grammar`, `Fts5Automaton`, `Fts5Machine`, `Fts5Driver`,
`Fts5Complete`, `Fts5Language`, `Fts5Errors`, `Fts5QueryForms`, `Fts5Queries`, `Fts5Parser`). The generated tables are taken entry by entry.
`Fts5Automaton` says what each state means and checks, over all states, that the tables agree with that reading forwards
and backwards. From this follow soundness, completeness up to an exact stack bound, the absence of ambiguity, and that
the accepted language is the language of the 28 rules. What has been shifted can always be completed, so a syntax
error names the first token with which no expression goes on. `Fts5Parser.Parser` is the object with its stack array and its
loop; it is proved to do what the machine does, for every sequence of calls and also after a syntax error. A stack entry's semantic value is the parse tree, and its `major` is
the tree's root symbol.

**The growable parser stack** (`GrowableStack`), **parse-time rewrites** (`ExprRewrites`, `ExprForms`,
`ExprCalls`) and **compound SELECT chains**
(`SelectChain`) come from the parser template and the SQL parser. Rewrites are judged by the three-valued value of
whole expressions, with comparison, negation and truth left open, by the function calls they keep, and by the forms
that no longer occur.

**The multi-process tester**: its task queue (`TaskQueue`, `TaskQueueTurns`, `TaskQueueSafety`) is a state machine over atomic
transactions of any number of processes, and its glob matcher (`GlobPattern`, `GlobText`, `GlobExact`,
`GlobFailures`, `GlobClasses`, `GlobMatcher`) is compared with a declarative meaning of patterns, stated in terms of the
characters they are written with.

**The keyword hash** (`KeywordTables`, `KeywordFacts`, `KeywordWords`, `KeywordChains`, `KeywordLookup`, `KeywordCase`) is
compared with a linear search, and that with the 147 words in any mix of cases.

Where code and comments disagree the model follows the code:

- The comment above `strglob` gives `*[...]` and `#` their usual meaning. The code decides a class directly after a run
  of `*` and `?` the wrong way round, takes `#` after such a run for an ordinary character, and lets `#` swallow every
  digit. `GlobMatcher.StarThenA`, `HashTakesAll` and `HashAfterStarIsLiteral` are inputs on which this shows;
  `GlobClasses.ExactlyRight` says, for every pattern, whether the code and the comment agree on every text.
- A test client that gives up after thirty idle seconds writes its counts first and then records one more error, which
  dies with the process. `TaskQueueSafety.CountsConserved` says exactly when committed and local counts add up.
- The description of `sqlite_stat1` says that the last integer of a unique index is 1. NULLs do not count as equal for
  UNIQUE but do for ANALYZE: `IndexScan.UniqueEndsInTwo` is an index where it is 2, and `IndexScan.UniqueLastIsOne`
  says for which contents it is 1.
- The comment on the shortcut for single-column UNIQUE indexes says that all rows after a non-NULL one are distinct. In
  a descending index the NULLs are those rows: `IndexScan.DescendingBlinds` is an index where the scan reports a wrong
  column, `IndexScan.PushedRight` says for which indexes it does (their scan is called blinded), and
  `AnalyzeIndex.AnalyzeIndex` what comes out then.
- The comment on `IN ()` says that an operand with a function is kept because the function might be an aggregate. The
  flag that is tested misses calls in later items of a vector, in bounds of BETWEEN and in VALUES rows, so such calls
  are deleted, and likewise by a false conjunct: `ExprCalls.LaterItemLost`, `BoundLost`, `RowLost` and `ConjunctLost`
  are inputs. `ExprCalls.CallsSurvive` says for which expressions no call is lost.
- The comment on the keyword chains describes them by the name of the table of heads; the chain table is meant.

In the model of ANALYZE the random seed of the sample hashes is a parameter, and so are the contents of the index. In
the growable stack and the task queue, whether the allocator delivers and how long a client has been idle are
parameters too. FTS5 tokens arrive as codes with their text; splitting an expression into tokens is not part of this
model.

## Model

| member | source | states |
|---|---|---|
| IndexRows.LastRow | sqlite-master/src/analyze.c:718-745 | For the last row read, rows below and rows equal make up all rows read, in every column, and the distinct prefixes are those below plus its own. |
| IndexRows.NextRowSame | sqlite-master/src/analyze.c:732-734 | In columns left of the change, the new row's group is its predecessor's with one more row, with the same rows and prefixes below. |
| IndexRows.NextRowNew | sqlite-master/src/analyze.c:736-742 | From the changed column on, the new row starts a group of one, the rows below it are those below and equal to its predecessor, and one more prefix is below. |
| IndexRows.EarlierRow | sqlite-master/src/analyze.c:670-679 | What lies below an earlier row never changes; its group grows exactly while the row being read shares it. |
| IndexRows.NEqShrinks | sqlite-master/src/analyze.c:113-118 | nEq never increases from one column to the next. |
| IndexRows.NDLtGrows | sqlite-master/src/analyze.c:122-124 | nDLt of the last row never decreases from one column to the next, and is less than the rows read. |
| Reservoir.BetterCases | sqlite-master/src/analyze.c:535-552 | The preference between samples is: larger group, then shorter prefix, then larger finer groups, then larger hash. |
| Reservoir.BetterOrder | sqlite-master/src/analyze.c:500-552 | The preference is a strict order, and samples it does not separate have equal scores. |
| Accumulator.SampleIsBetterPost | sqlite-master/src/analyze.c:511-525 | The loop over trailing columns and the hash decides lexicographic order of those columns. |
| Accumulator.SampleIsBetter | sqlite-master/src/analyze.c:535-552 | The comparison decides the order of scores. |
| Arith.IntervalIsClosest | sqlite-master/src/analyze.c:460 | The distance between periodic samples is the smallest with which the announced rows bring at most a third of the budget: any shorter distance brings more. |
| Accumulator.HashDiffers | sqlite-master/src/analyze.c:755 | The generator of the sample hashes takes different states to different states. |
| StatInvariants.NewBeatsOpen | sqlite-master/src/analyze.c:582-585 | An open non-periodic sample in the closing group was chosen for a finer column and loses to the candidate: both asserts hold. |
| StatInvariants.UpgradeHasNoHole | sqlite-master/src/analyze.c:580-594 | The sample upgraded for a closing column is non-periodic and already knows the size of every finer group, so upgrading leaves no unknown count behind. |
| StatInvariants.NoneOpenMeansLater | sqlite-master/src/analyze.c:614-618 | A candidate without open samples in its group comes after every sample held, so appending keeps the samples in order. |
| StatInvariants.EvictedIsFair | sqlite-master/src/analyze.c:598-612 | No group the evicted sample stood for is larger than the group it was kept for. |
| StatInvariants.PushStep | sqlite-master/src/analyze.c:655-661 | One turn of the pushing loop keeps every reservoir invariant one column further and never lowers the score of the sample that would be evicted next. |
| StatSteps.FillStep | sqlite-master/src/analyze.c:663-679 | After closing from a column on, exactly the groups still open are unknown, every other count is exact, and the victim and the coverage of groups are as before. |
| StatSteps.NextRowStep | sqlite-master/src/analyze.c:724-745 | When the next row is read, the settled reservoir satisfies the invariant for one row more. |
| StatSteps.PeriodicTaken | sqlite-master/src/analyze.c:757-764 | A row that is due is taken whatever its score; every periodic sample taken so far is still held, and the invariant is kept. |
| Accumulator.StatAccum.AtMostThird | sqlite-master/src/analyze.c:460 | The spacing of periodic samples is the closest that uses at most a third of the budget on the announced rows; at any time during a scan at most a third are periodic, and a full reservoir has a sample that may be evicted. |
| StatSteps.BestStep | sqlite-master/src/analyze.c:766-772 | After each row the best row of a column is one of the current group, with exact figures, in the largest finer group inside it. |
| StatSteps.BestIsCandidate | sqlite-master/src/analyze.c:656-657 | With the final size of the closing group, the best row is a candidate whose counts from that column on are all exact. |
| StatSteps.FinalExact | sqlite-master/src/analyze.c:882-886 | After the final push every kept sample has, in every column, exactly the rows equal, rows below and distinct prefixes below of its row over the whole index, and none is zero. |
| StatSteps.FinalCoverage | sqlite-master/src/analyze.c:124-130 | Every prefix group is represented by a sample, or the reservoir is full and every non-periodic sample was kept for a group at least as large. |
| Accumulator.CandidateReady | sqlite-master/src/analyze.c:571-618 | The three asserts of the insertion routine hold for every candidate that is pushed. |
| Accumulator.StatAccum.SampleInsert | sqlite-master/src/analyze.c:558-640 | The new contents of the reservoir: unchanged under an open periodic sample, else the best open sample upgraded, else the sample appended after evicting the victim of a full reservoir, with the new victim the worst non-periodic sample. |
| Accumulator.StatAccum.SamplePushPrevious | sqlite-master/src/analyze.c:650-680 | Closing the groups from a column on settles the reservoir for that column; the best rows left of it are untouched and the victim gets no worse. |
| Accumulator.StatAccum.AdvanceCurrent | sqlite-master/src/analyze.c:729-742 | The in-place counter updates give the set-cardinality meaning of the counters for one row more. |
| Accumulator.StatAccum.StatPush | sqlite-master/src/analyze.c:702-779 | Every push keeps all invariants of the accumulator over one row more, counters and reservoir alike, and never lowers the victim's score. |
| Accumulator.StatAccum.StatGetRowid | sqlite-master/src/analyze.c:881-894 | The first call settles every count; each call returns the rowid of the next sample or nothing. |
| Accumulator.StatAccum.StatGetStat1 | sqlite-master/src/analyze.c:865-877 | The row count, then for each key column the estimate for its number of distinct prefixes. |
| Estimates.EstimateIs | sqlite-master/src/analyze.c:854-872 | An estimate lies between 1 and the row count, is 1 exactly when ten times the rows are at most eleven times the distinct prefixes, and is otherwise the quotient rounded up. |
| Estimates.EstimatesFall | sqlite-master/src/analyze.c:868-872 | The estimates of an index never increase from one column to the next. |
| Estimates.DistinctCount | sqlite-master/src/analyze.c:736-742 | Every row either shows a prefix for the first time or repeats one: distinct prefixes and repeats add up to the rows. |
| Estimates.EstimateOne | sqlite-master/src/analyze.c:868-872 | The estimate for a prefix is 1 if and only if at most one row in eleven repeats the prefix of an earlier row. |
| IndexScan.UniqueLastIsOne | sqlite-master/src/analyze.c:54-55 | For every UNIQUE index the last estimate is 1 if and only if at most one row in eleven has a NULL in its key and repeats an earlier key, or the scan was blinded. |
| IndexScan.UniqueEndsInTwo | sqlite-master/src/analyze.c:54-55 | A UNIQUE index with two NULL keys has 2 as its last integer. |
| IndexScan.NotNullLastIsOne | sqlite-master/src/analyze.c:54-55 | With all key columns NOT NULL, every key is distinct and the last integer is 1. |
| IndexScan.ChangeTested | sqlite-master/src/analyze.c:1064-1076 | Neighbouring rows first differ within the compared columns or right after them, also for the indexes that compare fewer columns. |
| IndexScan.Scanner.Step | sqlite-master/src/analyze.c:1161-1218 | For every row of every index, in any column directions, the emitted code passes on 0 once a single-column UNIQUE key has had a value, and else the leftmost column differing from the previous row, 0 on the first row. |
| IndexScan.PushedRight | sqlite-master/src/analyze.c:1166-1174 | What is passed on is right for every row if and only if the index is not a single descending UNIQUE column that starts with a value and has no value in its last two rows. |
| IndexScan.DescendingBlinds | sqlite-master/src/analyze.c:1166-1174 | UNIQUE (x DESC) holding a value and two NULLs: for the last row column 0 is passed on instead of column 1. |
| IndexScan.SeenIs | sqlite-master/src/analyze.c:1161-1218 | What is passed on is always right for the rows as the scan shows them, which are in order: the index itself, or, if blinded, the index with all keys distinct. |
| IndexScan.KeysCountedRight | sqlite-master/src/analyze.c:736-742 | The number of distinct keys seen is that of the index if and only if the scan is not blinded. |
| AnalyzeIndex.ReportIs | sqlite-master/src/analyze.c:108-130 | A settled reservoir yields rows with exact counts, in index order, that cover every group; every row due for periodic sampling is among them, at most a third are periodic, and taking rows any more often would have used more than a third. |
| AnalyzeIndex.AnalyzeIndex | sqlite-master/src/analyze.c:1082-1277 | For every index, column directions and content: the stat1 line holds the row count and the estimates, ending in 1 for a UNIQUE index exactly as stated above; an empty index gets none unless partial; the stat4 rows are exact, ascending, cover every group and include every row due at the closest spacing that uses at most a third of the budget. All of it is about the rows as the scan shows them, which are those of the index unless it is blinded. |
| StatText.PrintCounts | sqlite-master/src/analyze.c:911-916 | The printed counts of a sample are the decimal numbers joined by single spaces, with no space at the end. |
| StatText.PrintLine | sqlite-master/src/analyze.c:867-873 | The stat1 line is the row count and the estimates joined by single spaces. |
| StatText.DecimalPlain | sqlite-master/src/analyze.c:912 | A number is printed without leading zeros, and zero as 0. |
| StatText.JoinedCharacters | sqlite-master/src/analyze.c:909-916 | The printed text consists of digits and single spaces, with a digit at both ends. |
| StatText.DecodeIntArray | sqlite-master/src/analyze.c:1537-1553 | The decoding loop fills the array with the numbers of the text and leaves the slots beyond them alone. |
| StatText.ReadBack | sqlite-master/src/analyze.c:1537-1553 | Decoding printed numbers of any size gives each of them modulo 2^64. |
| StatText.RoundTrip | sqlite-master/src/analyze.c:867-916 | Any list of unsigned 64-bit counts printed by stat_get is decoded to the same list, whatever the spare slots. |
| StatText.ReadFirst | sqlite-master/src/analyze.c:1515-1517 | With fewer slots than numbers exactly the first numbers are read. |
| Fts5Lookup.ShiftTable | sqlite-master/fts5parse.c:786-845 | For every state and token the shift lookup keeps its asserts and returns the automaton's action. |
| Fts5Lookup.GotoTable | sqlite-master/fts5parse.c:851-875 | For every defined goto the range and lookahead asserts hold and the lookup returns the automaton's state. |
| Fts5Lookup.RuleTable | sqlite-master/fts5parse.c:960-1022 | The two rule tables give the left-hand side and minus the length of the right-hand side of all 28 rules. |
| Fts5Automaton.StepBack | sqlite-master/fts5parse.c:273-323 | Whatever rule a state is inside of, the symbol it was reached by is that rule's and the state before was inside the rule one symbol less, or could start it. |
| Fts5Automaton.ReduceBack | sqlite-master/fts5parse.c:273-323 | A state that asks for a reduction has read the whole right-hand side, and the lookahead binds no tighter than the rule. |
| Fts5Automaton.StepForward | sqlite-master/fts5parse.c:273-323 | From any state inside a rule, or able to start it, the next symbol of the rule has a move into the rule one symbol on. |
| Fts5Automaton.ReduceForward | sqlite-master/fts5parse.c:273-323 | With a rule complete and a token that may follow and binds no tighter, the action is to reduce by that rule. |
| Fts5Automaton.RankDrops | sqlite-master/fts5parse.c:1409-1441 | A measure over the top state that every unit or empty reduction lowers, one stack entry counting ten. |
| Fts5Machine.Handle | sqlite-master/fts5parse.c:1036-1060 | On any stack the parser can build, a state inside a rule sits on exactly the symbols of the rule read so far. |
| Fts5Machine.ReducePossible | sqlite-master/fts5parse.c:1260-1278 | Whatever the table asks to reduce is on the stack, symbol for symbol, and the goto below it is defined, so no reduction leads to an error. |
| Fts5Machine.ReducedMeets | sqlite-master/fts5parse.c:1260-1279 | A reduction leaves a stack the parser can build, also after a syntax error. |
| Fts5Machine.ReducedReady | sqlite-master/fts5parse.c:1260-1279 | As long as there was no error, a reduction leaves operators grouped by precedence. |
| Fts5Machine.ReducedFuel | sqlite-master/fts5parse.c:1409-1441 | Every reduction lowers the measure of the whole stack: one call always ends. |
| Fts5Machine.ReducedYield | sqlite-master/fts5parse.c:1273-1276 | A reduction does not change the tokens the stack spells. |
| Fts5Driver.ProcessKeeps | sqlite-master/fts5parse.c:1409-1563 | From any stack and on any token, also after errors, one call shifts its token after reductions that spell the same tokens, or accepts, only at the end of input, a derivation of everything on the stack. |
| Fts5Driver.ProcessAnswers | sqlite-master/fts5parse.c:1409-1563 | If there was no error before, what is shifted or accepted has its operators grouped by precedence. |
| Fts5Driver.AcceptStack | sqlite-master/fts5parse.c:1332-1353 | When the action is accept, the stack holds one entry, the finished input. |
| Fts5Driver.ParseSound | sqlite-master/fts5parse.c:1373-1577 | Accepted tokens are the yield of a derivation of input by the rules, every operator respecting precedence. |
| Fts5Complete.Read | sqlite-master/fts5parse.c:1373-1577 | Fed the tokens of any tree its state can start, the parser puts that tree on the stack if the room it needs is there, and overflows otherwise. |
| Fts5Language.ParseComplete | sqlite-master/fts5parse.c:1373-1577 | Every precedence-respecting derivation is rebuilt from its tokens exactly when its need of stack entries is within the depth; else the answer is stack overflow. |
| Fts5Language.AcceptsExactly | sqlite-master/fts5parse.c:1373-1577 | The parser accepts tokens with a given tree if and only if the tree is a valid derivation of them that respects precedence and fits the stack. |
| Fts5Language.DeeperStack | sqlite-master/fts5parse.c:146-148 | A deeper stack changes no accepted parse. |
| Fts5Language.Unambiguous | sqlite-master/fts5parse.c:274-323 | Two precedence-respecting derivations of the same tokens are the same tree. |
| Fts5Language.Regroup | sqlite-master/fts5parse.c:458-487 | Every derivation can be regrouped by precedence without changing its tokens. |
| Fts5Language.AcceptsLanguage | sqlite-master/fts5parse.c:458-487 | Tokens are accepted at some depth if and only if the 28 rules derive them, and a syntax error at any depth means that they do not. |
| Fts5Language.ParseChain | sqlite-master/fts5parse.c:465-467 | An unparenthesised chain of AND, OR and NOT is never a syntax error, and its tree applies the last of its weakest operators last, on both sides again. |
| Fts5Errors.Completed | sqlite-master/fts5parse.c:273-323 | Whatever is on the stack can be completed: some derivation of the 28 rules begins with the tokens it spells. |
| Fts5Errors.ShiftedBegins | sqlite-master/fts5parse.c:1373-1577 | Tokens that have all been shifted begin some expression of the 28 rules. |
| Fts5Errors.FailedBeginsNothing | sqlite-master/fts5parse.c:1549-1551 | If the next token fails, no expression begins with what was shifted and that token, whatever follows. |
| Fts5Errors.OneErrorToken | sqlite-master/fts5parse.c:1307-1322 | There is only one token with which an input first ceases to begin an expression. |
| Fts5Queries.QueryRoundTrip | sqlite-master/fts5parse.c:1064-1254 | Every query of the language (phrases, ^, NEAR, column filters with lists and negation, implicit and explicit operators), written with parenthesised operands, is parsed back to itself, or overflows the stack; it is never a syntax error. |
| Fts5Queries.DefaultDepth | sqlite-master/fts5parse.c:146-148 | The default stack of 100 entries reads every such query nested at most 29 deep, and 31 deep if it is made of single phrases. |
| Fts5Parser.Parser.Shift | sqlite-master/fts5parse.c:925-956 | A shift adds one entry or, with the array full, empties the stack and reports overflow. |
| Fts5Parser.Parser.Reduce | sqlite-master/fts5parse.c:1036-1279 | The reduction on the array, with the asserts about the goto action, is the machine's reduction. |
| Fts5Parser.Parser.Call | sqlite-master/fts5parse.c:1373-1577 | For every token, in every state that earlier calls can leave, a call ends, keeps all its asserts and the array bounds, and has the machine's outcome, contents, error count and report. |
| Fts5Parser.ReadExpression | sqlite-master/ext/fts5/fts5_expr.c:294-297 | The caller's loop reports what a run of the machine over all tokens and the end of input says; a syntax error names the first token, or the end, with which no expression goes on. |
| GrowableStack.Stack.Grow | sqlite-master/lempar.c:297-332 | Growing keeps every entry and the top, strictly enlarges the array to twice its size plus 100 or to the limit, never past it, and fails exactly without memory or at the limit. |
| GrowableStack.Stack.Overflow | sqlite-master/lempar.c:643-659 | Overflow destroys every entry once, the top one first, and leaves the stack empty. |
| GrowableStack.Stack.Push | sqlite-master/lempar.c:685-716 | A push adds the entry, growing if need be; when that fails everything held has been destroyed once. |
| GrowableStack.Run | sqlite-master/lempar.c:942-957 | A whole run of shifts and reductions ends like the unbounded stack, or overflows at an operation that needs room; with memory available, exactly when it outgrows the limit. |
| ExprRewrites.BuildIsNull | sqlite-master/parse.c:235-258 | The loop under the signs decides whether the operand is a literal of a non-null kind. |
| ExprRewrites.IsNullMeans | sqlite-master/parse.c:235-258 | The tree for IS NULL and IS NOT NULL, folded to a constant or not, has the value of the test. |
| ExprRewrites.IsMeans | sqlite-master/parse.c:262-273 | The tree for IS and IS NOT, turned into a NULL test or not, compares with NULL equal to itself only. |
| ExprRewrites.SignMeans | sqlite-master/parse.c:5123-5136 | Replacing a unary plus by the sign before it keeps the value. |
| ExprRewrites.InMeans | sqlite-master/parse.c:5170-5222 | The trees for IN and NOT IN with no, one constant or more members have the three-valued value of membership. |
| ExprRewrites.AndMeans | sqlite-master/src/expr.c:1145-1165 | A conjunction folded to 0 because a side is flagged false has the value of the conjunction. |
| ExprRewrites.BuildMeans | sqlite-master/parse.c:5028-5222 | For every expression and environment the tree built from the leaves up has the value of the expression as written. |
| ExprForms.BuildNormal | sqlite-master/parse.c:5028-5222 | No tree has a sign over a plus (but for the one put on the single member of IN), a NULL test on a signed literal, an IS with NULL on the right, a conjunction known to be false without calls, an IN with no or one constant member, or one of a vector with a plain list. |
| ExprForms.SteadyIsConstant | sqlite-master/src/expr.c:2541-2647 | An expression written without columns, with deterministic functions only and with no vector before IN, is recognised as constant. |
| ExprForms.OneConstantCompared | sqlite-master/parse.c:5195-5200 | IN with one such member becomes a comparison with it under a plus. |
| ExprForms.ConstantValue | sqlite-master/src/expr.c:2541-2647 | What is recognised as constant has the same value on every row and whatever the other functions do. |
| ExprCalls.AllTold | sqlite-master/src/expr.c:1003-1031 | The flags that the constructors set, and what folds to a constant, can be told from the source: a call is flagged unless it is in a later vector item, a BETWEEN bound or a row compared with a vector. |
| ExprCalls.CallsSurvive | sqlite-master/parse.c:5178-5191 | No tree has a call the source has not, and it has all of them, with multiplicity, if and only if no operand of IN () and no conjunction with a false side that is not flagged contains a call. |
| ExprCalls.OpenKeepsAll | sqlite-master/parse.c:5178-5191 | If no call hides in those places, the flag is right and every call is kept. |
| ExprCalls.LaterItemLost | sqlite-master/parse.c:5016-5021 | `(1, count(*)) IN ()` becomes false and loses its aggregate. |
| ExprCalls.BoundLost | sqlite-master/parse.c:5157-5163 | `(1 BETWEEN 1 AND count(*)) IN ()` becomes false and loses its aggregate. |
| ExprCalls.RowLost | sqlite-master/parse.c:5210-5216 | `((1, 1) IN ((1, count(*)))) IN ()` becomes false and loses its aggregate. |
| ExprCalls.ConjunctLost | sqlite-master/src/expr.c:1152-1158 | `0 AND (1 BETWEEN 1 AND count(*))` becomes 0 and loses its aggregate. |
| SelectChain.DoubleLink | sqlite-master/parse.c:131-157 | Up to the first term with a misplaced ORDER BY or LIMIT, all terms are flagged and pNext undoes pPrior; the errors are exactly that complaint and the one about too many terms; without errors the whole chain is well linked. |
| SelectChain.AppendTerm | sqlite-master/parse.c:4303-4327 | The new term is put at the head of the left chain; a right operand that is a chain becomes the subquery of a fresh term, linked, with its own chain untouched, and the errors are exactly those of linking it. |
| TaskQueue.Client.StartScript | sqlite-master/mptest/mptest.c:541-616 | One turn of the loop on the database and the local counters is the specified transaction: the counts are written; a client told to halt signs off and starts nothing; else its oldest waiting task is started; else it gives up or waits. |
| TaskQueue.NextTask | sqlite-master/mptest/mptest.c:580-583 | The task found is the oldest of the client that nobody has started, and none is missed. |
| TaskQueueTurns.TurnWrites | sqlite-master/mptest/mptest.c:564-569 | Whatever comes of a turn, the local counts are added to the committed ones and cleared. |
| TaskQueueTurns.HaltedTurn | sqlite-master/mptest/mptest.c:570-578 | A client told to halt claims nothing, even with a task waiting: it is removed from the clients and ends. |
| TaskQueueTurns.WorkingTurn | sqlite-master/mptest/mptest.c:580-598 | A client not told to halt that has a waiting task starts the oldest one, however long it has been idle. |
| TaskQueueTurns.IdleTurn | sqlite-master/mptest/mptest.c:599-616 | Without a task the client stays, or signs off and ends when it has been idle too long. |
| TaskQueueTurns.HaltReachesAll | sqlite-master/mptest/mptest.c:263 | A fatal error of any process, or the supervisor's halt, tells every client there is to halt. |
| TaskQueueTurns.HaltLasts | sqlite-master/mptest/mptest.c:570-578 | A halt is not taken back before the client has signed off. |
| TaskQueueTurns.HaltedRun | sqlite-master/mptest/mptest.c:541-648 | In every interleaving, from the halt until the client has signed off, no process of that client claims a task. |
| TaskQueueSafety.RunSafe | sqlite-master/mptest/mptest.c:541-648 | Every interleaving of any processes keeps the queue's invariant. |
| TaskQueueSafety.ClaimedOnce | sqlite-master/mptest/mptest.c:580-598 | A task is claimed at most once, even by several processes of one client. |
| TaskQueueSafety.ClaimOrder | sqlite-master/mptest/mptest.c:580-631 | Tasks of one client are claimed in increasing id, claimed tasks are started, and a task that ended was claimed. |
| TaskQueueSafety.OneRunner | sqlite-master/mptest/mptest.c:1397-1408 | Two processes never run the same task. |
| TaskQueueSafety.StartBalanced | sqlite-master/mptest/mptest.c:1417-1432 | At the start nothing is recorded or lost, so the laws about counts hold of every run from there. |
| TaskQueueSafety.CountsConserved | sqlite-master/mptest/mptest.c:564-569 | Committed and local counts equal everything recorded if and only if no process ended with counts it had not written. |
| TaskQueueSafety.GivingUpLosesOne | sqlite-master/mptest/mptest.c:600-605 | A client that gives up loses exactly the one error that says so; its other counts are committed. |
| TaskQueueSafety.FinalSummary | sqlite-master/mptest/mptest.c:1452-1468 | If no counts were lost or are still held elsewhere, the supervisor's summary is everything recorded. |
| GlobMatcher.Strglob | sqlite-master/mptest/mptest.c:136-203 | The matcher terminates and answers the specified relation for every pattern and text. |
| GlobMatcher.MatchClass | sqlite-master/mptest/mptest.c:165-191 | The scan of a bracket decides membership in the ranges it lists and finds where the pattern goes on; an unclosed bracket matches nothing. |
| GlobMatcher.PassNumber | sqlite-master/mptest/mptest.c:192-196 | A # takes an optional sign before a digit and every digit there is. |
| GlobText.OrdinaryMeans | sqlite-master/mptest/mptest.c:120-135 | An ordinary character in a pattern stands for itself. |
| GlobText.QueryMeans | sqlite-master/mptest/mptest.c:126 | A ? stands for any one character. |
| GlobText.StarMeans | sqlite-master/mptest/mptest.c:124 | A * stands for any sequence of characters. |
| GlobText.HashMeans | sqlite-master/mptest/mptest.c:133-134 | A # stands for one or more digits with an optional sign. |
| GlobText.ClassMeans | sqlite-master/mptest/mptest.c:128-131 | A bracket, as written with single characters, ranges and a closing bracket in first place, stands for one character that is listed, and with ^ for one that is not. |
| GlobText.UnclosedMeans | sqlite-master/mptest/mptest.c:165-191 | A bracket that is not closed matches nothing. |
| GlobText.ClassRuns | sqlite-master/mptest/mptest.c:165-191 | The matcher accepts, with a bracket as whole pattern, exactly the texts of one character that is listed, and with ^ exactly the others. |
| GlobText.NotA | sqlite-master/mptest/mptest.c:171-174 | The pattern `[^a]` rejects "a" and accepts "b". |
| GlobExact.CleanExact | sqlite-master/mptest/mptest.c:120-135 | On clean patterns the matcher's answer is the declarative meaning, on every text. |
| GlobClasses.ExactlyClean | sqlite-master/mptest/mptest.c:143-163 | A pattern whose items can all match something is answered rightly on every text if and only if no run of * and ? with a star stands directly before [ or #, and no # before something that can take a digit. |
| GlobClasses.ExactlyStuck | sqlite-master/mptest/mptest.c:143-163 | A pattern with an item that can match nothing is answered rightly on every text if and only if the matcher meets such an item, or a digit directly after a #, before a run directly before a class. |
| GlobClasses.ExactlyRight | sqlite-master/mptest/mptest.c:143-163 | For every pattern, one of these two conditions decides whether the matcher is right on all texts. |
| GlobClasses.ClassAfterStar | sqlite-master/mptest/mptest.c:148-152 | After a run with a star, a class asks for a place from which the rest of the pattern does not match. |
| GlobClasses.HashSearched | sqlite-master/mptest/mptest.c:154-160 | After a run with a star, # is searched for in the text like any character. |
| GlobMatcher.StarThenClass | sqlite-master/mptest/mptest.c:148-152 | For every class, a star and the class give the wrong answer on every text of one character. |
| GlobMatcher.StarThenA | sqlite-master/mptest/mptest.c:148-152 | The pattern `*[a]` rejects "a" and accepts "b". |
| GlobMatcher.HashTakesAll | sqlite-master/mptest/mptest.c:192-196 | The pattern `#1` rejects "11". |
| GlobMatcher.HashAfterStarIsLiteral | sqlite-master/mptest/mptest.c:154-160 | The pattern `*#` rejects "7". |
| KeywordChains.AllPlaced | sqlite-master/keywordhash.h:28-135 | Each of the 147 keywords lies inside the text and in the chain of the slot its own letters hash to. |
| KeywordChains.ChainEnds | sqlite-master/keywordhash.h:83-96 | From any keyword the chain ends within four steps, although it does not run in keyword order. |
| KeywordChains.Distinct | sqlite-master/keywordhash.h:68-135 | No two keywords of one chain are spelled alike. |
| KeywordLookup.MatchOnPath | sqlite-master/keywordhash.h:297 | A keyword that a token spells under the fold is in the chain of the token's own slot. |
| KeywordLookup.KeywordCode | sqlite-master/keywordhash.h:293-464 | For every byte string of at least two bytes the chain walk ends with the answer of a linear search of all keywords. |
| KeywordLookup.Sqlite3KeywordCode | sqlite-master/keywordhash.h:466-470 | Shorter tokens are no keywords; all others get the linear search's answer. |
| KeywordWords.AllWords | sqlite-master/keywordhash.h:28-160 | The 147 keywords, as words: where the text, the lengths and the offsets spell each of them. |
| KeywordCase.CaseIgnored | sqlite-master/keywordhash.h:297-310 | Texts that differ only in the case of ASCII letters get the same answer. |
| KeywordCase.FoundIs | sqlite-master/keywordhash.h:293-313 | A keyword is the answer if and only if the text reads as its word, letter by letter in either case; an underscore is also matched by the delete character, which has the same bits but for the one masked. |
| KeywordCase.SelectFound | sqlite-master/keywordhash.h:293-313 | "select" and "SeLeCt" are answered with SELECT. |

## Left out

- SampleInsert: samples are values in an array; moving the three count buffers of the evicted sample to its successor, so that they are reused, is not modelled.
- FinalSummary: the summary is stated for a state in which the supervisor has seen the committed counters; the timed waits before reading them are not modelled.
- ANALYZE with an analysis limit (skipping ahead with a seek), memory exhaustion, wrap-around of counters at 64 bits, and the creation of the statistics tables.
- The settings after the numbers of a stat1 line (unordered, sz=, noskipscan) and the conversion to logarithmic estimates.
- What the FTS5 reduce actions allocate and free: the flattening of nested AND and OR nodes, column sets and phrase tables in fts5_expr.c; the value of an entry is the parse tree.
- Tracing, coverage counters and the high-water mark of the parser stack.
- BuildMeans: the words TRUE and FALSE used as operands, COLLATE, CAST and subqueries are not in the expression type. While a column is being renamed the parser folds no conjunction; that mode is not modelled. A row whose size differs from the vector before IN is a parse error, which the model does not report.
- The tables of the SQL parser itself (600 states); only its named reduce actions are modelled. IN with a scalar subquery as its only member, type affinity and collation are not modelled.
- Process spawning, logging, timeouts and script syntax of the tester; a client process started by hand for a client number that is already running is not a step of the model.
- The parser codes of the keywords: the lookup returns the keyword's number, of which the code is a table entry. The EBCDIC branch and non-ASCII case mapping are left out; bytes above 127 map to themselves.
