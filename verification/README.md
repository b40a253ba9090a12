# Verified model of the SQL assistant's core services

A model in Dafny of the parts of the service that carry real state: the tabular
SQL formatter, the Postgres-to-Qdrant batch, hint merging and literal scrubbing, the
message log with snapshot restore, the active-run and cancel stores, the slot
normaliser, the currency printer and the process summary.

## How it is organised

| files | what they hold |
|---|---|
| `Text`, `PostProcess` | Python string operations; a text read as visible characters and the gaps between them |
| `SqlTree`, `Rendering` | the parser's tree, keyword classes, and the render state with its transitions |
| `Preservation`, `Lossless` | formatting keeps the text: what is kept, and exactly when that is everything |
| `Probe`, `Separation`, `Fusion`, `Sites` | formatting keeps tokens apart: a dry run of the pending flags, its correctness, a readable sufficient condition, inputs that lose a boundary and where in a tree they do |
| `Layout`, `Blocks` | indent levels and depth; which END closes which BEGIN or CASE |
| `Queries`, `Settled`, `QueryText`, `QueryLayout` | a query language with its token trees and the layout meant, texts the clean-up leaves alone, and that formatting a query gives its layout |
| `Transcript`, `Written`, `Transcribes` | the formatted text piece by piece, with the tokens each piece is written for, proved to be what the renderer writes |
| `Seams`, `Columns` | read off the pieces: exactly when tokens stay apart, and where keywords land |
| `Gaps`, `Stable`, `Imprints`, `Squeezing`, `Verbatim` | the whitespace between characters through every pass, and exactly when a literal survives |
| `Capitals` | letter case of keywords in the formatted text |
| `Formatter` | the formatter as it runs, with its mutable context, proved to compute those transitions |
| `SyncModel`, `SyncInvariant`, `SyncFresh`, `SyncTheorems`, `SyncCounts` | the batch as a state machine, what every step keeps, and what follows for whole histories |
| `SyncBatch` | the batch and the reconcile pass as they run, each store operation retried and free to fail half way |
| `FirstSeen`, `Hints` | order-preserving deduplication, hint merging |
| `Scrub`, `Regions` | scrubbing and table names; what a comment and a literal are |
| `MessageLog`, `Snapshots` | the log and its buffer, restoring turns |
| `ProcessSummary`, `Sections` | the nested document stored with a turn, and what it shows key by key |
| `SummaryExtract`, `Malformed`, `SummaryRoundTrip` | reading it back: the extractors, what they make of every document, and what comes back of the state |
| `SessionFlags`, `ActiveRuns`, `Cancel` | one flag a session under every interleaving |
| `Options`, `Selection` | a value that may be missing; the members of a list a loop keeps |
| `Currency` | printing amounts |
| `Normalizer`, `Repairs`, `NormalizerSteps` | validating and post-processing slots: the functions and their laws, what becomes of each value, the steps as they run |

Code that updates state in place is a class or a method with loops here, proved
against a specification function; the results are lemmas about those functions and about
histories of events. Library calls are trees, maps and atomic operations that may fail;
what they return is a parameter or an arbitrary value.

## Where the code differs from its documentation

- The formatter's notes describe levels of ten columns, blocks of four and keywords aligned
  at nine; the code uses eight, six and seven.
- The formatter is described as changing layout only. A comparison whose laid-out subquery
  is not last loses what follows it (`Lossless.SubqueryFirstLosesText`; exactly when:
  `Lossless.FormattingKeepsText`); a CASE operand is written together with WHEN, a set
  operator together with what follows it, and BEGIN in a CASE expression as well
  (`Fusion.SimpleCaseLosesABoundary`, `Fusion.SetOperatorLosesABoundary`,
  `Fusion.BeginLosesABoundary`; exactly when: `Seams.TokensStayApart`); two blanks inside
  a literal become one (`Verbatim.LiteralChanged`; exactly when a literal survives:
  `Verbatim.LeavesVerbatim`).
- Hint merging is described as ordering by frequency; the code keeps first-mention order
  (`Hints.FrequencyIgnored`).
- A description edited while a run that writes descriptions is at work can be overwritten
  (`SyncTheorems.DescriptionOverwritten`; exactly when: `SyncTheorems.EditedDescriptionLost`).
- The cancel check is described as a single read; it makes two, and can miss
  a flag between them (`Cancel.CheckMissesExample`; exactly when: `Cancel.CheckMisses`).
- Enumerated slots are described as corrected for case; except for the intents only an
  invalid value is replaced, a valid one in another case stays
  (`Normalizer.LowercaseNoneLeft`; exactly when: `Normalizer.LowercaseNoneSurvives`).
- Restored snapshots are described as ascending in time; that needs a user message between
  any two of them (`Snapshots.AskedOnceReversed`; exactly when: `Snapshots.RestoreOrder`).
- A pending cap of 0 keeps every unsaved message (`MessageLog.BufferBounded`).

## Model

| member | source | states |
|---|---|---|
| `PostProcess.CleanKeepsCells` | src/utils/sql_formatter.py:1258-1285 | The final clean-up only moves whitespace: every visible character stays, in order, and whitespace stays between two of them exactly where it was. |
| `PostProcess.LineUnchanged` | src/utils/sql_formatter.py:1258-1285 | The clean-up leaves a line alone if and only if, past its indentation, it has no two blanks in a row - inside a quoted literal too - and no whitespace at its end. |
| `PostProcess.LiteralRewritten` | src/utils/sql_formatter.py:1258-1285 | A concrete line whose string literal the clean-up of lines changes. |
| `PostProcess.CleanLineCells` | src/utils/sql_formatter.py:1258-1285 | One line keeps its visible characters and the gaps between them. |
| `Text.NormalizeCells` | src/utils/sql_formatter.py:235-237 | Normalising a keyword changes only its case and the amount of whitespace in it. |
| `Preservation.InnerOfPaired` | src/utils/sql_formatter.py:701-708 | Between the outer parentheses of a parenthesis node lies the whole rest of its text, in well formed tokens. |
| `Preservation.PadCells` | src/utils/sql_formatter.py:159-192 | Right-aligning a keyword adds whitespace in front of it and between its words, nothing else. |
| `Preservation.ResolvedText` | src/utils/sql_formatter.py:952-994 | A keyword merged from several tokens spells exactly the tokens it was merged from, blanks aside. |
| `Preservation.DispatchAdds` | src/utils/sql_formatter.py:1054-1106 | Whatever the kind of a keyword, its emission appends the keyword's text and otherwise only whitespace. |
| `Preservation.KeywordAdds` | src/utils/sql_formatter.py:997-1051 | Handling a keyword appends the text of the merged keyword and nothing else visible; `Preservation.ResolvedText` says that this is the text of all tokens consumed. |
| `Preservation.ListAdds` | src/utils/sql_formatter.py:1109-1182 | Rendering any token list, from any render state, appends exactly the visible text its tree keeps. |
| `Preservation.GroupAdds` | src/utils/sql_formatter.py:832-878 | The same for every kind of group node. |
| `Preservation.ParensAdds` | src/utils/sql_formatter.py:544-609 | The same for a parenthesis: copied, at the depth limit, or laid out as a subquery. |
| `Preservation.CaseAdds` | src/utils/sql_formatter.py:463-541 | The same for a CASE expression. |
| `Preservation.ComparisonAdds` | src/utils/sql_formatter.py:777-829 | The same for a comparison with a subquery: exactly the operands the layout knows on its left, then the subquery; nothing that follows it. |
| `Preservation.OperandsAdd` | src/utils/sql_formatter.py:745-766 | The left of a comparison contributes its leaves, identifiers and functions and no other group. |
| `Preservation.FormatKeeps` | src/utils/sql_formatter.py:1292-1355 | The visible text of a formatted statement is exactly what its tree keeps, through the recursion over nested subqueries. |
| `Lossless.KeptMeasures` | src/utils/sql_formatter.py:832-878 | What a node keeps is never longer than its text, and is all of it if and only if no laid-out comparison inside it drops something. |
| `Lossless.FormattingKeepsText` | src/utils/sql_formatter.py:1292-1355 | With whitespace and case set aside, the formatted text equals the input text if and only if in every laid-out comparison the subquery comes last and only leaves, identifiers and functions precede it; it is never longer. |
| `Lossless.StatementsMeasure` | src/utils/sql_formatter.py:1326-1355 | The same for several statements joined by line breaks, blank ones left out. |
| `Lossless.FormatKeepsSql` | src/utils/sql_formatter.py:1292-1355 | The entry point keeps the text of any statement text if and only if it is blank or no statement in it drops anything. |
| `Lossless.SubqueryFirstLosesText` | src/utils/sql_formatter.py:777-829 | A concrete tree, a laid-out subquery compared with a column on its right, whose formatted text is not its text. |
| `Lossless.ComparisonMeasures` | src/utils/sql_formatter.py:777-829 | A comparison keeps its whole text if and only if it is copied, or its subquery is last and only known operands precede it. |
| `Separation.ListSim` | src/utils/sql_formatter.py:1109-1182 | A dry run over the pending-space and pending-line-break flags predicts, for every token list that drops nothing, whether some two tokens come to stand next to each other in the output. |
| `Separation.GroupSim` | src/utils/sql_formatter.py:832-878 | The same for every kind of group that drops nothing. |
| `Separation.ParensSim` | src/utils/sql_formatter.py:544-609 | The same for parentheses and subqueries that drop nothing. |
| `Separation.CaseSim` | src/utils/sql_formatter.py:463-541 | The same for CASE expressions that drop nothing. |
| `Separation.ComparisonSim` | src/utils/sql_formatter.py:777-829 | The same for comparisons that drop nothing, the subquery being formatted on its own and indented. |
| `Separation.FormatSim` | src/utils/sql_formatter.py:1292-1355 | A formatted statement that drops nothing shows its tokens apart exactly when the dry run finds none fused. |
| `Separation.FormattingKeepsTokens` | src/utils/sql_formatter.py:1292-1355 | For a statement that drops nothing: the output shows exactly the tokens of the tree - their visible characters, letter case and the width of gaps aside - each still apart from the next, if and only if the dry run passes. |
| `Fusion.TidyKeepsTokens` | src/utils/sql_formatter.py:1292-1355 | If the statement drops nothing, every set operator is followed by a keyword that opens a line or by a parenthesis, every BEGIN by some token and every CASE directly by WHEN, formatting keeps all tokens apart. |
| `Fusion.ListCalm` | src/utils/sql_formatter.py:1109-1182 | In such a tree no render state leaves a token exposed to fusing with the next. |
| `Fusion.CaseCalm` | src/utils/sql_formatter.py:463-541 | A CASE expression without an operand fuses nothing. |
| `Fusion.CaseOperandFuses` | src/utils/sql_formatter.py:463-541 | In the dry run, every CASE expression with an operand before its first WHEN that does not end in a delimiter, then whitespace, runs the two together. |
| `Fusion.CaseOperandLosesABoundary` | src/utils/sql_formatter.py:463-541 | If a CASE expression in the list of a statement that drops nothing has, before its first WHEN, an operand that does not end in a delimiter and then whitespace, the formatted text does not keep the tokens apart. |
| `Fusion.SimpleCaseLosesABoundary` | src/utils/sql_formatter.py:463-541 | A concrete CASE expression with an operand whose output does not keep its tokens apart. |
| `Fusion.SetOperatorFuses` | src/utils/sql_formatter.py:1233-1249 | A statement that drops nothing and starts with a set operator, whitespace and a leaf or a keyword that opens no line does not keep its tokens apart in the output. |
| `Fusion.SetOperatorLosesABoundary` | src/utils/sql_formatter.py:1233-1249 | EXCEPT ALL, read as two keywords, is such a statement. |
| `Fusion.BeginLosesABoundary` | src/utils/sql_formatter.py:1107-1182 | A concrete tree with BEGIN at the end of a list inside a CASE expression whose output does not keep its tokens apart. |
| `Sites.CaseOperandAnywhere` | src/utils/sql_formatter.py:463-541 | The same of a CASE expression with an operand wherever it is laid out in a statement - in subqueries, parentheses, identifiers, lists and other CASE expressions. |
| `Sites.SetOperatorAnywhere` | src/utils/sql_formatter.py:1233-1249 | The same of a set operator, whitespace and a leaf or a keyword other than END that opens no line, at any position of any list laid out in a statement, lists of plain items aside. |
| `Seams.ClashAtSeam` | src/utils/sql_formatter.py:1109-1182 | Two tokens that the input keeps apart and the output does not are found only at a first WHEN, behind a set operator or behind BEGIN, whatever the nesting. |
| `Seams.TokensStayApart` | src/utils/sql_formatter.py:1292-1355 | A statement that drops nothing shows its tokens apart if and only if at those three places, in it and in every subquery formatted by itself, each two neighbours that the input separates by whitespace meet at a parenthesis, comma or semicolon. |
| `Transcribes.StatementWrites` | src/utils/sql_formatter.py:1109-1182 | The text given to the clean-up is made of pieces: each token written once, in order, with nothing but whitespace in between; every clause, JOIN, AND, OR or ON keyword handled in a token list - those in a CASE expression or a copied node stay inline - stands at the start of a line of its own, and a piece has no whitespace before it only as a first WHEN, behind a set operator or BEGIN, or next to a delimiter. |
| `Columns.CleanKeepsLine` | src/utils/sql_formatter.py:1258-1285 | The clean-up of a whole text keeps the indentation by blanks of every line with its first word, the line staying a line, and the visible text before and after it. |
| `Columns.KeywordColumns` | src/utils/sql_formatter.py:1185-1230 | In the formatted text of every statement, each keyword handled in a token list - not in a CASE expression, a copied node or a subquery formatted by itself - that says SELECT, FROM, WHERE or another of the twenty clauses, one of the eleven JOINs, ON, or AND or OR not inside the bounds of a BETWEEN, and whose first word has at most seven letters, opens a line and ends that word in column 6 * block level + 7, the level being that of the state which handles it; the visible text before and after it is what was written before and after the keyword. |
| `Columns.KindsOf` | src/utils/sql_formatter.py:199-232 | A keyword is a clause, a JOIN or a set operator if and only if it is one of the twenty, eleven or eight texts. |
| `QueryLayout.QueryLaidOut` | src/utils/sql_formatter.py:1292-1355 | The whole layout, for every query of a small language - plain and CASE items, a table or an aliased subquery behind FROM, joins with ON, conditions chained by AND and OR, comparisons with a laid-out subquery, GROUP BY, set operators, nested up to thirty deep: the formatted text is exactly the text laid out by columns - keywords ending in column 7 of their block, items one below the other in column 8, a subquery six columns further right with its parenthesis in column 8, WHEN and ELSE five columns right of their CASE expression and END below it, a compared subquery moved to the column of its parenthesis, a set operator and what follows it at the margin. |
| `QueryLayout.QueryRuns` | src/utils/sql_formatter.py:1109-1182 | The same of the text before the clean-up, from any state between two parts of a query and at any block level. |
| `QueryLayout.ParenRenders` | src/utils/sql_formatter.py:544-609 | A subquery behind FROM is laid out one block, six columns, further right than the query around it, which goes on where it was. |
| `QueryLayout.CaseRenders` | src/utils/sql_formatter.py:463-541 | A CASE expression: its branches one below the other, five columns right of the column of an item, END in that column, each word once and in order. |
| `QueryLayout.CondRenders` | src/utils/sql_formatter.py:777-829 | A condition that starts in column 8 of its block: a compared subquery that is not simple is formatted as if it stood alone and moved to the column behind the equals sign. |
| `QueryLayout.SpreadOut` | src/utils/sql_formatter.py:711-742 | A compared subquery is laid out if its text has JOIN, GROUP BY, HAVING, ORDER BY, LIMIT or a set operator, or AND or OR without BETWEEN; it stays on one line if it has none of these. |
| `QueryLayout.SubqueryIs` | src/utils/sql_formatter.py:302-332 | A parenthesis counts as a subquery if and only if SELECT or WITH stands in it, at most five levels of nodes deep. |
| `QueryLayout.SimpleListIs` | src/utils/sql_formatter.py:642-664 | A list behind GROUP BY or ORDER BY stays on one line if and only if no member is or holds a CASE expression and no item has a parenthesis, an arithmetic sign or two bars in a row. |
| `QueryLayout.Compounds` | src/utils/sql_formatter.py:952-994 | INSERT INTO, DELETE FROM, CONNECT BY and START WITH, with any whitespace in between, are one clause keyword of three tokens. |
| `QueryLayout.TwoBelow` | src/utils/sql_formatter.py:1292-1355 | For any four names, the literal four lines of a query of two items with a condition. |
| `QueryText.LayShows` | src/utils/sql_formatter.py:1258-1285 | The layout of a query is its indentation and a text without double blanks, blanks at line ends or empty lines. |
| `Settled.SmoothIsClean` | src/utils/sql_formatter.py:1258-1285 | The clean-up leaves every text alone that ends visibly, does not start with a line feed, and has no blank at a line end, no empty line and no two blanks behind a visible character. |
| `Gaps.CleanFines` | src/utils/sql_formatter.py:1258-1285 | The clean-up keeps every visible character exactly, letter case included, and changes the whitespace between two of them by itself, whatever stands around it. |
| `Stable.GapStable` | src/utils/sql_formatter.py:1258-1285 | The clean-up leaves whitespace between two characters alone if and only if it is line feeds, then blanks (only behind a line feed), then no two blanks in a row and no further line feed. |
| `Stable.PassedStays` | src/utils/sql_formatter.py:777-829 | Whitespace in a subquery that is formatted, re-indented and cleaned again with every statement around it arrives as it is if and only if it is stable and has no line feed unless every column is zero. |
| `Squeezing.CopyFines` | src/utils/sql_formatter.py:427-460 | Copying an identifier, comparison or function keeps every character that is not in a keyword and turns each stretch of whitespace into one blank. |
| `Verbatim.StatementCarries` | src/utils/sql_formatter.py:1292-1355 | The formatted text carries the visible leaves of a statement that drops nothing one after the other, each with the whitespace inside it changed as its place - laid out, copied, in re-indented subqueries - says. |
| `Verbatim.LeavesVerbatim` | src/utils/sql_formatter.py:1292-1355 | A formatted statement that drops nothing shows every token but its keywords verbatim, letter case included, if and only if the whitespace inside each token survives: single blanks in a copied node; elsewhere stable whitespace, without a line feed inside a subquery indented to a positive column. |
| `Verbatim.SingleBlanksSurvive` | src/utils/sql_formatter.py:1292-1355 | If whitespace inside the tokens other than keywords is single blanks, they all appear verbatim, wherever they are written. |
| `Verbatim.LiteralChanged` | src/utils/sql_formatter.py:1258-1285 | A statement of one string literal with two blanks in it, which the formatter turns into one. |
| `Capitals.KeywordsWritten` | src/utils/sql_formatter.py:952-994 | In the formatted text of every statement each keyword handled in a list stands, behind exactly what is visible before it, as its own tokens in capitals with single blanks in between and without a letter a-z, or, without capitals asked for, as the same in small letters without a letter A-Z. |
| `Capitals.KeywordsInCapitals` | src/utils/sql_formatter.py:1292-1355 | With capitals asked for, the visible text of a formatted statement that drops nothing is that of its tokens with every keyword in capitals and nothing else changed - in lists, CASE expressions, copied nodes and subqueries alike, nested up to thirty deep. |
| `Capitals.KeyTextIs` | src/utils/sql_formatter.py:975-992 | A keyword of a list is its tokens in capitals, or all of it in small letters, whichever was asked for. |
| `Formatter.FindBetweenAnd` | src/utils/sql_formatter.py:335-374 | The single pass with a waiting flag finds exactly the ANDs whose latest earlier keyword among BETWEEN, AND, clauses, JOINs and set operators is BETWEEN. |
| `Formatter.AwaitsStep` | src/utils/sql_formatter.py:352-374 | One token changes whether a BETWEEN waits for its AND just as the loop's flag does. |
| `Blocks.EndsClose` | src/utils/sql_formatter.py:1028-1043 | On every token tree, whatever is open around it and in whatever nested lists BEGIN, CASE and END stand: the keywords written in lists, in order, are what they are in the tree, except that an END ends a block if and only if the opener it matches - in rendering order through all nested lists, those open before included - is BEGIN; afterwards the openers without an END are open. |
| `Blocks.BalancedRestores` | src/utils/sql_formatter.py:1028-1043 | If BEGIN, CASE and END balance over all nested lists together, the open blocks are those before; without a set operator outside the laid-out parentheses, and if no block crosses the border of one, so is the block level. |
| `Blocks.TopMatches` | src/utils/sql_formatter.py:1028-1043 | The opener on top of the stack is the one the nesting levels match with the END; with nothing on the stack no opener matches it. |
| `Layout.ListLaid` | src/utils/sql_formatter.py:1109-1182 | After any list, from any such state, the top level is 0 or 1, the block level is not negative and the depth stays between 0 and 30; a list leaves the depth as it was. |
| `Layout.GroupLaid` | src/utils/sql_formatter.py:832-878 | The same for every group. |
| `Layout.CaseLaid` | src/utils/sql_formatter.py:463-541 | The same throughout a CASE expression. |
| `Layout.SubqueryRestores` | src/utils/sql_formatter.py:544-609 | A parenthesis restores both indent levels and the depth, even when a set operator inside it resets them. |
| `Layout.KeywordColumn` | src/utils/sql_formatter.py:1185-1230 | Right after a clause, JOIN, AND, OR or ON keyword is emitted, the last line of the buffer is the keyword with its first word, of at most seven letters, ending in column 6 * block level + 7; `Columns.KeywordColumns` carries this to the formatted text. |
| `Layout.BlockColumns` | src/utils/sql_formatter.py:1074-1098 | BEGIN stands in the keyword column of its block, opens one six columns further right and forces a line break; END closes the block in the column it was opened in. |
| `Layout.CleanLineKeepsStart` | src/utils/sql_formatter.py:1258-1285 | The clean-up of one line keeps its indentation and first word. |
| `Formatter.IndentStack.IncreaseTop` | src/utils/sql_formatter.py:281-283 | Only the top level grows, by one. |
| `Formatter.IndentStack.DecreaseTop` | src/utils/sql_formatter.py:285-287 | Only the top level shrinks, never below zero. |
| `Formatter.IndentStack.IncreaseBlock` | src/utils/sql_formatter.py:289-291 | Only the block level grows, by one. |
| `Formatter.IndentStack.DecreaseBlock` | src/utils/sql_formatter.py:293-295 | Only the block level shrinks, never below zero. |
| `Formatter.RenderCtx.Emit` | src/utils/sql_formatter.py:407-410 | Appends to the buffer and touches no flag or level. |
| `Formatter.RenderCtx.FlushSpace` | src/utils/sql_formatter.py:416-420 | Turns a pending blank into a written one, once. |
| `Formatter.RenderCtx.CurrentLineLength` | src/utils/sql_formatter.py:684-690 | The length of the text after the last line break, found part by part from the end of the buffer. |
| `Formatter.DispatchKeyword` | src/utils/sql_formatter.py:1054-1106 | Carries out the state change of its keyword kind, all flags and both levels included. |
| `Formatter.ResolveDmlCompound` | src/utils/sql_formatter.py:952-994 | Finds the merged keyword, its text and how many further tokens it consumes; what that text is in either case: `Capitals.KeyTextIs`. |
| `Formatter.HandleKeywordToken` | src/utils/sql_formatter.py:997-1051 | Carries out the state change of a keyword token, the attribution of END included, and reports the tokens consumed. |
| `Formatter.HandlePunctuation` | src/utils/sql_formatter.py:895-923 | Carries out the state change of a comma, a semicolon or a parenthesis. |
| `Formatter.RenderTokenList` | src/utils/sql_formatter.py:1109-1182 | The loop over a token list computes the state change the preservation, separation and layout results speak about. |
| `Formatter.RenderGroupNode` | src/utils/sql_formatter.py:832-878 | The same for a group. |
| `Formatter.RenderParenthesis` | src/utils/sql_formatter.py:544-609 | The same for a parenthesis, saving and restoring both levels and the depth. |
| `Formatter.RenderCaseNode` | src/utils/sql_formatter.py:463-541 | The same for the loop over a CASE expression. |
| `Formatter.RenderComparisonSubquery` | src/utils/sql_formatter.py:777-829 | The same for a comparison with a subquery, re-indented line by line. |
| `Formatter.CleanUp` | src/utils/sql_formatter.py:1258-1285 | The line loop computes the clean-up the other results speak about. |
| `Formatter.FormatSqlTabular` | src/utils/sql_formatter.py:1292-1355 | The entry point: blank text comes back as it is, otherwise the non-blank statements are formatted one by one and joined. |
| `SyncInvariant.StepKeeps` | devtools/scripts/enrich_sql_history.py:744-1171 | Every step of a run, of reconcile and of the environment - failed, half applied or committed without acknowledgement - keeps ownership, soundness up to the cursor and the accounts of the batch at work. |
| `SyncInvariant.HistoryKeeps` | devtools/scripts/enrich_sql_history.py:744-1171 | So does every history of any length. |
| `SyncInvariant.UpsertTriedKeeps` | devtools/scripts/enrich_sql_history.py:560-610 | A failed upsert that wrote any part of its batch breaks nothing. |
| `SyncInvariant.CommitUpsertsKeeps` | devtools/scripts/enrich_sql_history.py:643-705 | Recording the upserted rows in one transaction keeps the invariant, whatever was edited or deleted meanwhile. |
| `SyncInvariant.CommitDeletesKeeps` | devtools/scripts/enrich_sql_history.py:708-741 | So does recording the deletions. |
| `SyncInvariant.FinishKeeps` | devtools/scripts/enrich_sql_history.py:1069-1088 | Moving the saved cursor to the last timestamp fetched is sound when no row failed. |
| `SyncInvariant.EditKeeps` | devtools/scripts/enrich_sql_history.py:757-766 | An edit stamped after everything seen keeps the invariant. |
| `SyncTheorems.CursorSoundness` | devtools/scripts/enrich_sql_history.py:757-766 | After any history of crashed and successful runs, every described active row up to the saved cursor has its recorded point in the collection with its own text; so has every row whose present version was embedded and recorded, with its statement and, if it has one, its description; every inactive row up to the cursor records none; other points generated for such a row are leftovers of runs that ended before recording them, or belonged to a deleted row. |
| `SyncFresh.StepFresh` | devtools/scripts/enrich_sql_history.py:744-1171 | Every step keeps it that a row whose present version was embedded and recorded has its point in the collection with its statement, and that such rows of the batch at work are as they were fetched. |
| `SyncFresh.FreshAreShown` | devtools/scripts/enrich_sql_history.py:931-1064 | After any history, each active row whose present version was embedded and recorded - with or without a description in the table - has its point in the collection with its statement. |
| `SyncFresh.FinishedAreFresh` | devtools/scripts/enrich_sql_history.py:934-1088 | When a run ends successfully, every row it fetched that is active, has something to embed and was not edited meanwhile has been embedded and recorded in its present version. |
| `SyncFresh.GeneratingRunsCover` | devtools/scripts/enrich_sql_history.py:744-1090 | If all runs generate descriptions, every active row with any text up to the saved cursor has its point in the collection with its statement, also where no description is written back. |
| `SyncTheorems.PointOwnership` | devtools/scripts/enrich_sql_history.py:977-990 | No two rows ever record one point id, and every point no row records was generated by a run that ended, or is still, before recording it, or belonged to a deleted row. |
| `SyncTheorems.Conservation` | devtools/scripts/enrich_sql_history.py:832-924 | Throughout a run, rows fetched = upserted + failed + skipped + deleted + no-op deletes + both queues. |
| `SyncCounts.CountsOf` | devtools/scripts/enrich_sql_history.py:931-1083 | After any history, in the run at work: failed is the number of rows with a statement and no description taken without a generated text plus those whose embedding or deletion was given up; skipped is the number of active rows taken with no text at all or, in direct mode, with no description; and once everything is recorded the run may finish successfully if and only if none of those failures happened. |
| `SyncCounts.RunCounts` | devtools/scripts/enrich_sql_history.py:931-1083 | The same from any state on, through the steps of the environment and of other runs. |
| `SyncTheorems.ReconcileRestricts` | devtools/scripts/enrich_sql_history.py:1110-1171 | A reconcile, complete or cut short, deletes no point an active row records; a complete one leaves exactly the collection restricted to the ids of active rows. |
| `SyncTheorems.ReconcileIdempotent` | devtools/scripts/enrich_sql_history.py:1110-1171 | After a complete pass of the sweep the collection is restricted to the ids of active rows, and a second pass, complete or not, finds nothing to delete and changes nothing. |
| `SyncTheorems.EditedDescriptionLost` | devtools/scripts/enrich_sql_history.py:643-705 | A description edited after the fetch is overwritten when the upserts are recorded if and only if the run writes descriptions, the row is among those recorded and its entry has another description; a description fetched with the row is then back. |
| `SyncTheorems.DescriptionOverwritten` | devtools/scripts/enrich_sql_history.py:643-705 | A history from an empty collection: a run generates a description, the row is edited before the write-back, and the edited description is overwritten. |
| `SyncTheorems.FullRunCoversAll` | devtools/scripts/enrich_sql_history.py:760-766 | An undisturbed full run that succeeds leaves no row above the saved cursor. |
| `SyncBatch.FullCovers` | devtools/scripts/enrich_sql_history.py:744-1090 | The same, of any history that ends in such a run. |
| `SyncTheorems.Convergence` | devtools/scripts/enrich_sql_history.py:931-1171 | From whatever crashes left, an undisturbed successful full run and a complete reconcile make the ids of the collection exactly those of the active rows, one each and with their text, when every active row has a description by then. |
| `SyncBatch.BatchesPartition` | devtools/scripts/enrich_sql_history.py:832-836 | For every batch size of at least one the flush loop takes consecutive, disjoint batches, full except perhaps the last of a forced flush; a forced flush empties the queue, any other leaves less than a batch. |
| `SyncBatch.KeptFlatten` | devtools/scripts/enrich_sql_history.py:837-881 | A flush keeps every entry if all batches come through, none if all fail, and never more than it took. |
| `SyncBatch.SyncJob.UpsertBatch` | devtools/scripts/enrich_sql_history.py:560-610 | On success the whole batch is in the collection; after the last failed attempt any part of it may be, and the run's locals are untouched. |
| `SyncBatch.SyncJob.FlushUpsert` | devtools/scripts/enrich_sql_history.py:820-881 | The batches are handled in order; the write-back list grows by exactly the successful ones, in order, the failed ones are counted row by row, and a failed upsert stops the run after them. |
| `SyncBatch.SyncJob.DeleteBatch` | devtools/scripts/enrich_sql_history.py:613-640 | On success all points are gone; a failed attempt may have removed any of them. |
| `SyncBatch.SyncJob.FlushDelete` | devtools/scripts/enrich_sql_history.py:883-924 | Either all rows of the queue that had a point are deleted and noted for the write-back, or all rows of the queue count as failed; if nothing fails, they are deleted. |
| `SyncBatch.SyncJob.TryRecordUpserts` | devtools/scripts/enrich_sql_history.py:643-705 | One transaction over all upserted rows, which may have committed even when it reports an error. |
| `SyncBatch.SyncJob.WriteBackUpserts` | devtools/scripts/enrich_sql_history.py:1010-1042 | Retries that transaction; nothing to record counts as recorded. |
| `SyncBatch.SyncJob.TryRecordDeletes` | devtools/scripts/enrich_sql_history.py:708-741 | One transaction clearing the point id of all deleted rows. |
| `SyncBatch.SyncJob.WriteBackDeletes` | devtools/scripts/enrich_sql_history.py:1044-1064 | Retries that transaction. |
| `SyncBatch.SyncJob.HandleRow` | devtools/scripts/enrich_sql_history.py:934-998 | One fetched row is skipped, failed, queued for upsert under its recorded or a fresh id, or queued for deletion, and full batches are flushed; an active row with no text at all, or in direct mode with no description, adds one to skipped and nothing to failed. |
| `SyncBatch.SyncJob.Conclude` | devtools/scripts/enrich_sql_history.py:1006-1088 | A run counts as successful only after both queues are flushed, both write-backs are through and no row failed; if none failed and no store operation does, it does. |
| `SyncBatch.SyncJob.Run` | devtools/scripts/enrich_sql_history.py:744-1090 | A whole run, killed or failing anywhere: the rows up to the cursor stay in step with the collection, no two rows share a point, and the cursor moves only when every step succeeded; a successful full run nobody disturbed leaves no row above it. If nothing fails, the run succeeds. |
| `SyncBatch.SyncJob.Balanced` | devtools/scripts/enrich_sql_history.py:832-924 | The run's counters account for every fetched row, and the write-back lists are as long as the counters say. |
| `SyncBatch.SyncJob.Reconcile` | devtools/scripts/enrich_sql_history.py:1093-1171 | The paged pass only removes points, keeps every point an active row records, and when it completes leaves exactly those; it completes if the stores answer. |
| `FirstSeen.FirstsSubsequence` | src/utils/sqlglot_analyzer.py:131-165 | Deduplication keeps the first element with each key, in input order. |
| `FirstSeen.FirstsDistinct` | src/utils/sqlglot_analyzer.py:131-165 | No two elements kept share a key. |
| `FirstSeen.FirstsKeys` | src/utils/sqlglot_analyzer.py:131-165 | No key is lost and none is added. |
| `FirstSeen.FirstsHomomorphism` | src/utils/sqlglot_analyzer.py:131-165 | Deduplicating two parts first and then their concatenation is deduplicating the concatenation. |
| `FirstSeen.MergeKeyed` | src/utils/sqlglot_analyzer.py:136-152 | The loop with a set of seen keys computes that deduplication. |
| `FirstSeen.MergePlain` | src/utils/sqlglot_analyzer.py:154-169 | So does the loop that looks each element up in the list. |
| `Hints.JoinKeysAgree` | src/utils/sqlglot_analyzer.py:555-558 | Two join conditions get the same key if and only if they have the same sides, in any order and with any blanks. |
| `Hints.JoinEitherWay` | src/utils/sqlglot_analyzer.py:555-558 | A join written with blanks around the equals sign, as it is extracted, has the key of the same join the other way round and of the one without blanks. |
| `Hints.KeyOfTwo` | src/utils/sqlglot_analyzer.py:555-558 | The key of a join of two sides is the smaller side, the sign, the other side, without blanks. |
| `Hints.BlankAnywhere` | src/utils/sqlglot_analyzer.py:555-558 | A blank inserted anywhere changes no key. |
| `Hints.NoBlankLeft` | src/utils/sqlglot_analyzer.py:556-556 | No blank is left, and a text without blanks stays as it is. |
| `Hints.LeqIs` | src/utils/sqlglot_analyzer.py:557-557 | The order of the sides is by the first differing code point, a prefix first. |
| `Hints.JoinKeyIgnoresSides` | src/utils/sqlglot_analyzer.py:555-558 | Swapping the two sides of a condition does not change its key. |
| `Hints.MergedCodesHomomorphism` | src/utils/sqlglot_analyzer.py:142-147 | Merging the column dictionaries part by part is merging them at once, column order and value order included. |
| `Hints.MergeHomomorphism` | src/utils/sqlglot_analyzer.py:107-182 | Merging the merge of one list of hints with the merge of another equals merging both lists, in all twelve fields, order of first mention and first limit included. |
| `Hints.MergeIdempotent` | src/utils/sqlglot_analyzer.py:107-182 | No hints are the unit of merging, and merging again changes nothing. |
| `Hints.MergedOnce` | src/utils/sqlglot_analyzer.py:107-182 | Every list merged by a key has each key of its inputs exactly once and no other. |
| `Hints.CodesOnce` | src/utils/sqlglot_analyzer.py:142-147 | In the merged dictionary of codes no column and no value of a column comes twice, and it lists exactly the pairs of column and value that the merged dictionaries list. |
| `Hints.FrequencyIgnored` | src/utils/sqlglot_analyzer.py:107-182 | Three hints after whose merge a table mentioned twice stands behind one mentioned once. |
| `Hints.MergeCodes` | src/utils/sqlglot_analyzer.py:142-147 | The dictionary loop adds each column and each of its values once. |
| `Hints.MergeHints` | src/utils/sqlglot_analyzer.py:107-182 | The loop over all hints and fields computes the merge the laws above speak about. |
| `Scrub.CleanMatchesNothing` | src/utils/sqlglot_analyzer.py:239-250 | The pattern matches nowhere in a text if and only if the text has no double dash, no comment opening before a comment end and no quote twice. |
| `Scrub.StripCleans` | src/utils/sqlglot_analyzer.py:248-250 | After one pass nothing matches any more, for unterminated quotes and comments as well. |
| `Scrub.StripFixedPoint` | src/utils/sqlglot_analyzer.py:248-250 | A second pass changes nothing, and a text is its own scrubbed form exactly when nothing in it matches. |
| `Regions.MatchIsRegion` | src/utils/sqlglot_analyzer.py:239-246 | At every position the pattern matches exactly a line comment up to the line feed or the end, a block comment up to the first star-slash, or a literal in either quote whose inner quotes are doubled and behind whose end no quote follows that could go on, and matches it whole. |
| `Regions.RemovedIsDivided` | src/utils/sqlglot_analyzer.py:248-250 | A text divides into such regions, each beginning at the first place after the one before where one starts; whatever divides it so, exactly the characters within the regions are removed. |
| `Regions.LineCommentsOnly` | src/utils/sqlglot_analyzer.py:240-250 | In a text without quotes and block comments exactly the characters at or behind a double dash on its own line are removed. |
| `Regions.NamesInCapitals` | src/utils/sqlglot_analyzer.py:236-236 | A table name is, up to case, TB, a system of three letters and an identifier of seven letters or digits, joined by underscores. |
| `Regions.FoundOutside` | src/utils/sqlglot_analyzer.py:273-276 | The names found are exactly those that stand as whole words with no character inside a region, whatever way the text is divided. |
| `Regions.ParticleHides` | src/utils/sqlglot_analyzer.py:236-236 | A name directly followed by a Korean particle is not found. |
| `Scrub.TableNamesComplete` | src/utils/sqlglot_analyzer.py:236-236 | The search finds exactly the names that stand as whole words in the text. |
| `Scrub.TablesFound` | src/utils/sqlglot_analyzer.py:273-276 | The names found after scrubbing are exactly those that stand in the statement outside every comment and literal. |
| `Scrub.GetRealTables` | src/utils/sqlglot_analyzer.py:253-283 | The result starts with the parsed names, adds only names found outside comments and literals, misses none of them up to case, and adds none twice up to case. |
| `MessageLog.InsertAllAppends` | src/services/message_store.py:103-147 | Inserts extend a table numbered 1..n to one numbered without gaps, in the order given. |
| `MessageLog.SaveShape` | src/services/message_store.py:96-167 | One call appends its message to the line of stored and pending ones and drops the oldest unsaved beyond the cap. |
| `MessageLog.Conversation` | src/services/message_store.py:96-167 | For a cap of at least one: stored rows followed by the buffer are the submitted messages in order without exactly those some failed call dropped for the cap; the buffered ones are the latest; rows are numbered 1..n; the buffer never exceeds the cap. |
| `MessageLog.NothingLost` | src/services/message_store.py:96-167 | If no failure leaves more than cap messages unsaved, every submitted message is stored or pending. |
| `MessageLog.BufferBounded` | src/services/message_store.py:148-155 | The cap bounds the buffer if and only if it is at least one; with 0 the slice keeps everything. |
| `MessageLog.MessageStore.SaveMessage` | src/services/message_store.py:42-167 | A call has the outcome stated above for its own conversation and touches no other; a success returns the number of the row that holds the current message, the last one; it reports a number if and only if no insert failed. |
| `MessageLog.MessageStore.InsertEach` | src/services/message_store.py:103-147 | The insert loop stores a prefix of the messages, all up to the first insert that fails - all of them if none does -, and reports its length and the last number. |
| `Snapshots.PairingGrows` | src/services/turn_snapshot_store.py:224-270 | Later answers are paired with the same or a later user message, and with a later one if and only if the user wrote in between. |
| `Snapshots.SortReversed` | src/services/turn_snapshot_store.py:160-161 | The stable sort puts turns that come newest first into ascending order if and only if neighbours have different user messages. |
| `Snapshots.RestoreOrder` | src/services/turn_snapshot_store.py:110-169 | The restored snapshots are the newest qualifying turns that build, each once, paired with the latest earlier user message; they come oldest first if and only if the user messages were found and the user wrote between any two of those turns. |
| `Snapshots.NewestRows` | src/services/turn_snapshot_store.py:192-222 | The rows fetched are exactly the successful normal assistant messages with a statement that fewer than the limit such messages follow, newest first; there are as many as the smaller of the limit and their number. |
| `Snapshots.RestoredAre` | src/services/turn_snapshot_store.py:110-169 | The turns restored are exactly those of such rows that build, each with the greatest earlier normal user message, or 0. |
| `Snapshots.AskedOnceReversed` | src/services/turn_snapshot_store.py:110-169 | One question answered twice: the two turns are restored newest first. |
| `Snapshots.RestoreFromDb` | src/services/turn_snapshot_store.py:72-169 | The service with its failures: no rows, no snapshots; no user messages, every turn paired with 0; a turn that does not build is skipped. A turn comes back if and only if it belongs to one of the newest qualifying answers - role, type, status and statement written out - builds, and is paired with the greatest earlier normal user message. |
| `Snapshots.UserSeqIsLatest` | src/services/turn_snapshot_store.py:251-262 | The paired number is the greatest of an earlier normal user message. |
| `Snapshots.QualifyingAscends` | src/services/turn_snapshot_store.py:197-221 | The query selects all successful normal answers with a statement and no other row. |
| `SessionFlags.FlagsAreLatest` | src/services/active_run_store.py:40-64 | After any interleaving a session holds a turn if and only if some event set it and no later one replaced, compare-deleted or removed it. |
| `SessionFlags.PoppedAtMostOnce` | src/services/cancel_store.py:105-117 | However turns race, each cancel flag set is handed out at most once. |
| `SessionFlags.FlagStore.SetTurn` | src/services/active_run_store.py:49-51 | Registers a turn, replacing whatever the session held. |
| `SessionFlags.FlagStore.ClearTurn` | src/services/active_run_store.py:53-60 | Removes the session's flag only if it is the caller's; any other turn that held it still holds it. |
| `SessionFlags.FlagStore.PopTurn` | src/services/cancel_store.py:64-66 | Returns the flag and removes it in one step. |
| `SessionFlags.FlagStore.ClearAll` | src/services/cancel_store.py:60-62 | Removes whatever flag the session has. |
| `SessionFlags.FlagStore.IsSet` | src/services/active_run_store.py:62-64 | Answers whether some turn holds the session. |
| `SessionFlags.FlagStore.IsSetTo` | src/services/cancel_store.py:55-58 | Answers whether this turn holds the session. |
| `ActiveRuns.ActiveIffLatestUncleared` | src/services/active_run_store.py:49-64 | With turn ids used once, a session is active if and only if the turn that registered last has neither cleared nor expired: an older turn's end never undoes a newer registration. |
| `ActiveRuns.ActiveMeansNotCleared` | src/services/active_run_store.py:75-103 | With expiry, active still implies that the registered turn has not cleared. |
| `ActiveRuns.PlainDeleteHidesNewerTurn` | src/services/active_run_store.py:70-79 | A delete without comparison would hide a newer turn. |
| `Cancel.CheckIsSound` | src/agents/graph/cancel.py:44-64 | A check cancels only if one of its two reads saw the turn's own id or the wildcard, which someone had set. |
| `Cancel.CheckIsExact` | src/agents/graph/cancel.py:44-64 | If both reads see the same flag, the answer is exactly whether it is the turn's own id or the wildcard. |
| `Cancel.CheckMisses` | src/agents/graph/cancel.py:44-64 | With a matching flag at both reads the check misses it if and only if a wildcard is replaced by the turn's own id in between. |
| `Cancel.CheckMissesExample` | src/agents/graph/cancel.py:44-64 | Two events that lead to that miss. |
| `Cancel.OthersDoNotCancel` | src/agents/graph/cancel.py:44-64 | A flag for another turn never cancels this one. |
| `Cancel.FlagStays` | src/agents/graph/cancel.py:44-64 | While a matching flag is in place at every instant, whatever sets or fails to clear it, a check finds it if and only if its first read does not see the wildcard and its second the turn's own id; the miss takes an event that replaces the wildcard by that id. |
| `Cancel.CheckCancel` | src/agents/graph/cancel.py:44-64 | Two reads with anything in between; without a store or after a store error the answer is no. |
| `Cancel.RunNodes` | src/agents/graph/cancel.py:90-106 | Each node is behind a check with two reads, one after the other, and its body runs if and only if that check says no: so no body runs whose check a matching flag - set at any time, also while an earlier node ran - was in place for without being narrowed from the wildcard to the own id; a turn is cancelled only after someone set its flag or the wildcard. |
| `Currency.PrintedAmount` | src/services/response_formatter.py:39-54 | Reading a printed amount gives the amount rounded to a whole number and truncated toward zero to its unit: 100 million from a trillion up, ten thousand from ten thousand up, one below. |
| `Currency.ReadGrouped` | src/services/response_formatter.py:39-54 | Digits grouped by commas read back as the number. |
| `Currency.ErrorBound` | src/services/response_formatter.py:39-54 | For whole amounts the printed one is never larger in magnitude and off by less than the unit. |
| `Currency.PrintingIsMonotone` | src/services/response_formatter.py:39-54 | Larger amounts never print smaller, across units, signs and halves. |
| `Currency.SamePrint` | src/services/response_formatter.py:39-54 | Two amounts print alike if and only if they truncate to the same. |
| `Currency.GroupedWell` | src/services/response_formatter.py:39-54 | In a printed number a comma stands exactly before each further three digits and nowhere else, and it does not start with a zero unless it is one. |
| `Currency.SignShows` | src/services/response_formatter.py:39-54 | The sign is printed if and only if the amount is below minus one half. |
| `Currency.PrintedSmall` | src/services/response_formatter.py:39-54 | The literal texts at the borders of the units below a hundred million. |
| `Currency.PrintedMillions` | src/services/response_formatter.py:39-54 | The literal texts from a hundred million up. |
| `Currency.PrintedTrillions` | src/services/response_formatter.py:39-54 | The literal texts from a trillion up. |
| `Currency.Halves` | src/services/response_formatter.py:39-54 | Halves round to the even neighbour. |
| `Normalizer.ValidationValidates` | src/services/query_normalizer.py:200-377 | After validation every enumerated field is valid up to case, the intent fields exactly. |
| `Normalizer.ValidStays` | src/services/query_normalizer.py:200-377 | Validation leaves a query alone if and only if it is valid, and then reports nothing. |
| `Normalizer.ValidationIdempotent` | src/services/query_normalizer.py:200-215 | A second validation changes nothing and reports nothing. |
| `Normalizer.AggregatesRepaired` | src/services/query_normalizer.py:408-439 | Under grouping no measure is left with the aggregate NONE, the others are untouched, and the questions asked are those of the repaired measures. |
| `Normalizer.QuestionPerRepair` | src/services/query_normalizer.py:418-439 | One question for each repaired measure, about its term, in order. |
| `Normalizer.LowercaseNoneSurvives` | src/services/query_normalizer.py:256-264 | Under grouping a measure still means NONE after both passes if and only if the model wrote it in another case, which validation accepts but does not correct. |
| `Normalizer.LowercaseNoneLeft` | src/services/query_normalizer.py:256-264 | A grouping query whose measure has the aggregate none in lower case still has it after both passes. |
| `Normalizer.KeywordsKeptOnce` | src/services/query_normalizer.py:464-480 | Each keyword that is no stopword is kept exactly once, stripped, and no other. |
| `Normalizer.OptimizedStays` | src/services/query_normalizer.py:452-480 | Merging the same columns and optimising again changes nothing. |
| `Normalizer.PostprocessIdempotent` | src/services/query_normalizer.py:393-405 | Post-processing again changes nothing if and only if the keyword dictionary was there or no column is expected; otherwise the first pass loses the columns. |
| `Normalizer.HistoryMentions` | src/services/query_normalizer.py:525-562 | The search text mentions the verb of the intent and, whatever the case, every term of an entity, a measure or a dimension. |
| `Repairs.IntentReplaced` | src/services/query_normalizer.py:218-233 | The primary intent stays, in capitals, if it is valid up to case, and otherwise is EXTRACT and reported. |
| `Repairs.DefaultsFilled` | src/services/query_normalizer.py:243-309 | Entities, measures, dimensions and filters stay as many and in order; a kind, aggregate, role, granularity or position that is not valid up to case becomes DIRECT, UNKNOWN, RAW, DISPLAY, UNKNOWN, EQUALS or PRE_AGG, the confidence goes, and every filter value is a text. |
| `Repairs.SlotsFilled` | src/services/query_normalizer.py:312-377 | The time slot's kind becomes NONE, a given but invalid way to resolve a period ABSOLUTE_RANGE, an invalid format NONE, a missing hint NONE without columns; the questions, ambiguities and keywords stay. |
| `Repairs.ModifiersKept` | src/services/query_normalizer.py:334-356 | The modifiers that remain are, in order, those with a kind valid up to case which nobody marked; a direction that is given but invalid becomes DESC. |
| `Repairs.RemovedReported` | src/services/query_normalizer.py:334-346 | Exactly the modifiers without a valid kind are reported, by position. |
| `Repairs.SecondariesKept` | src/services/query_normalizer.py:231-238 | The secondary intents that remain are, in order, those valid up to case, in capitals. |
| `Repairs.AggregatesBecomeSums` | src/services/query_normalizer.py:408-439 | If and only if a dimension has the role GROUP, or an intent is AGGREGATE, each measure whose aggregate is NONE gets SUM; nothing else about the measures changes. |
| `Repairs.RanksByFirstMeasure` | src/services/query_normalizer.py:442-449 | Each modifier of kind RANK without a measure gets the term of the first one, if there is one; nothing else about the modifiers changes. |
| `Repairs.MissingKept` | src/services/query_normalizer.py:452-461 | The columns appended are, in order, those not known yet. |
| `Repairs.StrippedKept` | src/services/query_normalizer.py:464-480 | The keywords kept before duplicates go are, in order, the stripped ones that are neither empty nor a stopword. |
| `Repairs.NewTermsKept` | src/services/query_normalizer.py:555-560 | The terms added to the search text are, in order, those not empty that the base does not mention, whatever their case. |
| `Repairs.SearchTextStarts` | src/services/query_normalizer.py:537-562 | The search text starts with the rewritten question, or the original if there is none, without the whitespace around it, and is no more than it if it mentions the verb and all terms. |
| `Repairs.SearchTextOrder` | src/services/query_normalizer.py:525-562 | With an entity, a measure, a dimension and the verb of AGGREGATE that the question does not mention, the text is question, verb, entity, measure and axis, separated by blanks. |
| `Repairs.AxisIs` | src/services/query_normalizer.py:512-522 | The axis of a dimension is its term with the particle for by at its end, once. |
| `Repairs.VerbsAre` | src/services/query_normalizer.py:484-494 | The verbs of the nine intents; no other intent has one. |
| `NormalizerSteps.Slots.ValidateIntent` | src/services/query_normalizer.py:218-240 | Corrects the primary intent, keeps the valid secondary ones in order, reports a replaced primary. |
| `NormalizerSteps.Slots.ValidateEntities` | src/services/query_normalizer.py:243-253 | The in-place loop mends every entity and nothing else. |
| `NormalizerSteps.Slots.ValidateMeasures` | src/services/query_normalizer.py:256-270 | The same for measures. |
| `NormalizerSteps.Slots.ValidateDimensions` | src/services/query_normalizer.py:273-288 | The same for dimensions. |
| `NormalizerSteps.Slots.ValidateFilters` | src/services/query_normalizer.py:291-309 | The same for filters, values turned into text. |
| `NormalizerSteps.Slots.ValidateTime` | src/services/query_normalizer.py:312-331 | The same for the time slot and its two periods. |
| `NormalizerSteps.Slots.ValidateModifiers` | src/services/query_normalizer.py:334-356 | Marks, mends and drops modifiers; one error for each of unknown type, by position. |
| `NormalizerSteps.Slots.ValidateOutputHint` | src/services/query_normalizer.py:359-377 | Mends the output hint or supplies the default. |
| `NormalizerSteps.Slots.ValidateStructure` | src/services/query_normalizer.py:200-215 | All slots in one pass: the result is valid up to case. |
| `NormalizerSteps.Slots.PostAggregateFix` | src/services/query_normalizer.py:408-439 | The in-place repair of measures, with its questions. |
| `NormalizerSteps.Slots.PostRankFix` | src/services/query_normalizer.py:442-449 | Ranks without a measure get the first one. |
| `NormalizerSteps.Slots.PostOutputHintMerge` | src/services/query_normalizer.py:452-461 | Expected columns not known as keywords are appended, if there is a dictionary to keep them. |
| `NormalizerSteps.Slots.PostOptimizeKeywords` | src/services/query_normalizer.py:464-480 | The loop with its set computes the optimised keywords. |
| `NormalizerSteps.Slots.PostBuildSqlHistorySearch` | src/services/query_normalizer.py:525-562 | The loop over the slot terms computes the search text. |
| `NormalizerSteps.Slots.Postprocess` | src/services/query_normalizer.py:393-405 | The five steps in order; under grouping no aggregate is left NONE. |
| `ProcessSummary.Build` | src/services/process_summary_builder.py:28-56 | There always is a summary, since the intent section is never empty. |
| `ProcessSummary.BuildInferences` | src/services/process_summary_builder.py:184-226 | The loop with its set of keys keeps the first candidate with each key, the choice of a database before the signals of the turn. |
| `Sections.IntentShown` | src/services/process_summary_builder.py:65-70 | The intent section holds the label and the continuation flag and nothing else. |
| `Sections.ViewShown` | src/services/process_summary_builder.py:83-93 | The rewritten question shows if and only if it is there and differs from the original; measures and filters if and only if one has a text. |
| `Sections.ViewShownBelow` | src/services/process_summary_builder.py:94-103 | The period shows as the first of its label, its resolution and its kind that is not empty; entities and dimensions if there are any; no other key does. |
| `Sections.InterpretationShown` | src/services/process_summary_builder.py:73-108 | Without a query the section is empty; with one it is what is shown, and the whole query. |
| `Sections.TablesKept` | src/services/process_summary_builder.py:121-137 | The tables listed are, in order, those not rejected, each with its name, its first label that is not empty, its status, whether the statement uses it, and the reason. |
| `Sections.DroppedKept` | src/services/process_summary_builder.py:139-150 | The rejected tables are listed in order with name and label. |
| `Sections.UsedIs` | src/services/process_summary_builder.py:117-120 | A table counts as used if and only if there is a statement and a table found in it has the same name but for the case of letters. |
| `Sections.TablesShown` | src/services/process_summary_builder.py:121-150 | Either list shows if and only if it has a table. |
| `Sections.ConsultedShown` | src/services/process_summary_builder.py:152-169 | Use cases and manuals show if and only if one is relevant, by their texts that are not empty, manuals shortened. |
| `Sections.ManualCut` | src/services/process_summary_builder.py:163-168 | A manual of more than 60 characters is cut after 60 with an ellipsis, a shorter one is whole. |
| `Sections.TermsShown` | src/services/process_summary_builder.py:171-184 | Terms show if one was selected, the knowledge items if there are any; no other key does. |
| `Sections.ValidationShown` | src/services/process_summary_builder.py:249-287 | Statement, summary and judgment show if and only if they are not empty; a result shows its count, at least 0, and its label. |
| `Sections.DecisionsShown` | src/services/process_summary_builder.py:238-247 | Inferences and pending assumptions show if and only if there are any, and the notice with either. |
| `Sections.SignalsDrawn` | src/services/process_summary_builder.py:207-226 | The candidates are, in order, the inferences of this turn, a missing value as an empty text. |
| `Sections.DatabaseDrawn` | src/services/process_summary_builder.py:197-206 | An ambiguous choice of a database comes first, from the readiness gate, with its rationale as the value. |
| `Sections.DocumentShown` | src/services/process_summary_builder.py:28-56 | The document holds four sections always, the decisions and the decomposition if they are not empty, and nothing else. |
| `ProcessSummary.KeysMeet` | src/services/process_summary_builder.py:212-222 | Two deduplication keys are the same if and only if question and printed value are, or one question and its bar begin the other question and its value says the rest, a bar and the other value. |
| `ProcessSummary.KeysAgree` | src/services/process_summary_builder.py:212-222 | Without a bar in the questions, keys tell questions and values apart, except that a missing value equals the text None. |
| `ProcessSummary.BarsConfuse` | src/services/process_summary_builder.py:212-222 | With a bar, two different questions can count as one. |
| `SummaryExtract.ExtractTableNames` | src/services/turn_snapshot_store.py:478-503 | The loop over the stored tables, with its type tests, defaults and errors. |
| `SummaryExtract.ExtractInferredSignals` | src/services/turn_snapshot_store.py:570-606 | The loop over the stored inferences, which leaves out the classifier's and what is no object. |
| `SummaryExtract.LoadEach` | src/services/turn_snapshot_store.py:637-669 | The loop over the stored knowledge items: what is no object is passed over, an item that does not validate is an error. |
| `Malformed.ElementsAre` | src/services/turn_snapshot_store.py:478-503 | Of every stored value, well formed or not: a text that is no object raises, a missing document or an empty section has no elements, a section that is neither empty nor an object raises, a list is its elements, a true number or truth value in its place raises, anything else has none. |
| `Malformed.NamesKept` | src/services/turn_snapshot_store.py:497-503 | The names are, in order, those of the elements that are objects with a use and a name that are not empty. |
| `Malformed.SignalsKept` | src/services/turn_snapshot_store.py:592-606 | The inferences restored are, in order, those of the objects not from the classifier, missing texts as empty ones, the reason under either key. |
| `Malformed.QueryIs` | src/services/turn_snapshot_store.py:609-634 | Of every stored value: when the query is missing, when reading it raises, and which one comes back. |
| `Malformed.KnowledgeIs` | src/services/turn_snapshot_store.py:637-669 | The same for the knowledge items. |
| `Malformed.ItemsLoad` | src/services/turn_snapshot_store.py:660-669 | Loading raises if and only if an object among the elements does not validate; otherwise the objects are loaded in order, and nothing else. |
| `Malformed.DecompositionIs` | src/services/turn_snapshot_store.py:672-693 | The decomposition comes back if it is an object, and is empty otherwise; only a text that is no object raises. |
| `SummaryRoundTrip.SummaryRoundTrip` | src/services/turn_snapshot_store.py:609-693 | From the nested document built for any state, its empty sections left out, stored as an object or as text, the query, every knowledge item and the decomposition come back and nothing fails, given that dumping and validating are inverse. |
| `SummaryRoundTrip.TablesRoundTrip` | src/services/turn_snapshot_store.py:478-503 | The names that come back are, in order, those of exactly the tables at positions not rejected, named and found in the statement. |
| `SummaryRoundTrip.InferencesRoundTrip` | src/services/turn_snapshot_store.py:570-606 | What comes back of the inferences is the choice of a database, if it was ambiguous, and then, in order, exactly the signals of the turn at positions where no earlier one - nor that choice - has the same question and printed value and the source is not the classifier. |
| `SummaryRoundTrip.InferenceRestored` | src/services/turn_snapshot_store.py:570-606 | A question answered in the turn is restored if and only if the first answer with its key is not the classifier's; a later answer of another node is lost with it. |
| `SummaryRoundTrip.OpenOnly` | src/services/process_summary_builder.py:228-236 | The pending assumptions kept are exactly those that overlap with no inferred value. |

## Left out

- The parser, the SQL analyser, the data validation library, the databases and the caches themselves: abstracted as trees, maps, sets and operations that may fail.
- In the formatter: comments; the fall-back to the unformatted text when the parser or the renderer raises; upper and lower case beyond ASCII letters.
- A subquery in a comparison is formatted from its text by parsing it again; the model formats the same children as one statement.
- PostProcess.CleanKeepsCells: says nothing about the amount of whitespace inside quoted literals; `Verbatim.LeavesVerbatim` does.
- Separation.FormattingKeepsTokens: says nothing about letter case and the width of gaps inside a token; `Verbatim.LeavesVerbatim` does.
- In the batch: a given start time, a row limit, runs without upsert or write-back, dry runs, the JSON side output, rows without a timestamp, and timings of the retries.
- The batch is modelled with one job at work at a time, fresh random ids, one transaction a write-back, and edits stamped later than anything fetched.
- QueryLayout.QueryLaidOut: states the layout of the queries of its language; of other statements - functions, arithmetic, HAVING, ORDER BY, WITH, changes of data - only the columns of their keywords are stated (`Columns.KeywordColumns`).
- SyncTheorems.CursorSoundness: claims nothing about an active row without a description that no run since its last edit embedded, as a run in direct mode skips it.
- SyncTheorems.Convergence: assumes nobody edits the table between the start of the full run and the end of the reconcile.
- MessageLog.Conversation: an insert that reports an error is taken to have stored nothing, one that reports none to return its row, and a restart of the service, which empties the buffer, is not modelled.
- Scrub.TablesFound: letters beyond ASCII count as parts of words, but no letter beyond ASCII matches an ASCII one whatever its case.
- Hints.MergeHints: a field missing from the hints of a statement is an empty one.
- Cancel.CheckCancel: one outcome for a store error, whichever of the two reads it hits.
- In the normaliser: the language-model calls, slots that are not dictionaries, notes and other fields no step reads.
- In the snapshots: the table and code metadata looked up for them, the fields copied from the row, and result data.
- In the process summary: how the display texts of the validation section are put together, and the tables found in the statement, which are given.
- Routes, sockets, prompts, configuration and logging.
