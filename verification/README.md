# Invoice OCR service: a verified model

This project models the part of the invoice OCR service that decides what happens to an uploaded receipt, and
proves properties of it for all inputs, all interleavings and whole runs: the three-stage worker pipeline, the
single-writer store, the three invoice stages with their cache and their judge, the later explanation of a
verdict, the cleaning of OCR text and the parsing of receipts, and the service all of these make together.
`dafny verify dfyconfig.toml` checks the whole project.

## How it is laid out

| files | what they hold |
|---|---|
| `Pipeline`, `PipelineSafety`, `PipelineTheorems`, `PipelineLiveness`, `PipelineOrder` | the worker pipeline as a transition system of goroutines, its invariant, drain, progress, order |
| `PipelineCode`, `PipelineRuns`, `PipelineMoves` | its methods on fields updated in place, that each of them is a run of the transition system, and which step moves which job |
| `Store`, `StoreSafety`, `StoreTheorems`, `StoreRefinement`, `StoreCode` | doWrite, writerLoop and Close; linearization; refinement of a sequential database; the methods in place |
| `Text`, `Clean`, `CleanTheorems`, `CleanResults` | trimming, splitting and joining; CleanText and its normal form; what comes out of fences and lines |
| `Regex`, `RegexTheorems` | a backtracking matcher that lists matches in order of preference, and two ways to read a pattern without matching |
| `Extract`, `ExtractTheorems`, `Receipt`, `ParseAnswers`, `ZeroUnits` | the patterns, Parse and Incomplete; what Parse and Incomplete make of a text, told from its lines; a receipt whose zero price escapes Incomplete |
| `Lexing`, `Money`, `MoneyTheorems` | what the money pattern takes; writing and reading amounts |
| `Preference`, `Quantities`, `Keywords`, `Descriptions`, `WrittenReceipts` | which match the matcher prefers, words and numbers; the quantity and barcode patterns; the words of meta, payment and total lines; what is left as a description; receipts written and read back |
| `Jev`, `ExplainTheorems`, `Cache` | compose and Explain; the memory cache |
| `Invoice`, `InvoiceTheorems`, `StageAnswers`, `Goroutines`, `Service` | the stages as functions of the world's answers, what they keep, what they answer, the assist and judge goroutines, and the stages as methods that update invoice, job and cache in place |
| `System`, `SystemSafety`, `SystemInv`, `SystemStep`, `SystemTheorems`, `SystemCache`, `SystemLiveness` | uploads, pipeline, stages, store and cache as one transition system; its whole runs; that they end, and not short of serving every upload |
| `Sums` | sums over sequences |

## How it is modelled

- A `select` is a choice between steps; a step that would panic sets a flag that is proved never set. Worker
  counts, buffer sizes, and the numbers of Enqueue, Shutdown, doWrite and Close calls are arbitrary. Contexts
  may be cancelled, and the database may refuse an operation, at any moment.
- A job is named by its Enqueue call and an invoice by its job: ids are fresh. The table is a map from ids to rows; a
  soft delete removes the row and Save inserts or overwrites. An operation shares the invoice with its caller and
  writes the values it finds when it runs.
- OCR engines, the assistant and the judge answer anything; what they answer comes in as values. A judge that
  may answer only some things about a text and an extract is a relation; "any answers" is the relation that
  always holds, and the transparency of the cache asks for one that determines the verdict.
- Strings are sequences of code points of valid UTF-8, so `len` of a trimmed text is the byte length of its
  encoding. The class `\p{L}` is a parameter that is the ASCII letters below 128. The patterns are values of a
  regular-expression type, written out as in the source.
- Amounts are exact decimals, as reals. The one place where a float64 shows is kept: an amount from
  2^1024 - 2^970 on does not parse. Hence "every match of the money pattern parses" is false of the code;
  `MoneyTheorems.AmountDroppedIff` gives the exact condition.
- "In a complete result quantity times unit amount add up to the estimate, within five cents a line" is false of the
  code where an item is priced at zero. `ExtractTheorems.ItemsAgreeIff` says exactly when the items agree with
  their lines, `ExtractTheorems.CompleteTimesGap` how much is missing, and `ZeroUnits.ZeroUnitEscapes` gives texts.
- In scoreOf the label looked up in the legend is always overwritten by the switch after it; `Jev.ScoreOf`
  keeps the lookup and proves it has no effect.
- The cache has the clock as a parameter, and texts stand for their SHA-256 keys. A nil cache and a disabled
  one behave alike for the stages.
- `says`, in the theorems about the service, is the judge; `cfg` holds the patterns, the minimum confidence in
  [0, 1] and the cache options.

## Model

| member | source | states |
|---|---|---|
| PipelineSafety.InitInv | internal/worker/pool.go:113-161 | NewPipeline, for any integers in the options, starts in a state of the invariant |
| PipelineSafety.InitIs | internal/worker/pool.go:113-161 | What NewPipeline builds, for any integers in the options: as many idle workers and as much room at each stage as its option says, one where that is less than one; empty open channels, no call made |
| PipelineSafety.InvStep | internal/worker/pool.go:169-314 | Every step of a worker, a closer, an Enqueue or a Shutdown keeps the invariant (control, callers, channels, workers, places, history, ranks) |
| PipelineTheorems.NeverPanics | internal/worker/pool.go:180-194 | In every reachable state no goroutine has sent on or closed a closed channel |
| PipelineTheorems.SizesAreOptions | internal/worker/pool.go:113-161 | In every reachable state of any pipeline each stage has the workers and the room its options ask for |
| PipelineTheorems.OutcomeMeans | internal/worker/pool.go:243-284 | What Enqueue returns is what the pipeline is at that moment: not started, stopped, full (started, not stopped, no room in ingest) or accepted (with room, and the job is put at the end); nothing but an acceptance touches a channel |
| PipelineTheorems.PlaceIsHistory | internal/worker/pool.go:198-238 | Wherever a job is found in the buffers or with the workers, that is where its history says it is, and it was accepted |
| PipelineTheorems.ExactlyOnePlace | internal/worker/pool.go:198-284 | A job was accepted iff it is somewhere, it is then in exactly one place, and in at most one slot of a buffer: nothing is lost or duplicated |
| PipelineTheorems.TraceIsPrefix | internal/worker/pool.go:198-238 | The stage functions called on a job are a prefix of prep, ocr, jev, each once; all three when it has finished; the first i+1 while a worker of stage i holds it |
| PipelineTheorems.DrainedMeansEmpty | internal/worker/pool.go:180-194 | Once all closers are done without a hard cancel, all three channels are closed and empty |
| PipelineTheorems.GracefulDrain | internal/worker/pool.go:288-314 | When Shutdown of a started pipeline returns and the job base was never cancelled, the channels are closed and empty and each accepted job has failed in a stage or been through all three |
| PipelineTheorems.CancelIffOver | internal/worker/pool.go:208-283 | A job's own cancel has been called iff Enqueue rejected it after building it or it has retired; then it is in no channel and with no worker |
| PipelineTheorems.ShutdownReleasesContexts | internal/worker/pool.go:288-314 | When Shutdown of a started pipeline returns, also after a hard cancel, no worker is left and every accepted job's context is done |
| PipelineLiveness.StepDecreases | internal/worker/pool.go:169-314 | Every enabled step lowers one measure of callers, remaining hops, live workers and open closers |
| PipelineLiveness.RunsAreFinite | internal/worker/pool.go:198-238 | No run is longer than the measure of its first state |
| PipelineLiveness.Unblock | internal/worker/pool.go:223-235 | For a worker with something to do, some worker or closer step is enabled, with all buffers downstream full and also after a hard cancel |
| PipelineLiveness.DrainProgress | internal/worker/pool.go:180-194 | Once ingest is closed, some worker or closer can step until every closer is done |
| PipelineLiveness.StuckMeansFinished | internal/worker/pool.go:243-314 | Deadlock freedom without counting on any cancelled context or timeout: where nothing else is enabled every Enqueue and every Shutdown has returned, and after a Shutdown everything is drained |
| PipelineLiveness.EveryRunCanFinish | internal/worker/pool.go:198-314 | From every state of the invariant a run without cancelled contexts and timeouts leads to one where everything has returned |
| PipelineLiveness.Backpressure | internal/worker/pool.go:261-283 | From NewPipeline on, accepted unretired jobs never exceed the buffers and workers asked for in the options, and a call can return Full exactly when it is past its checks and ingest holds as many jobs as its option (at least one) allows |
| PipelineOrder.FinishInAcceptanceOrder | internal/worker/pool.go:169-238 | With one worker per stage jobs finish in the order in which they were accepted |
| PipelineCode.Pool.constructor | internal/worker/pool.go:113-161 | NewPipeline in place: every stage has the workers and the room of its options, one where an option is less, idle and empty; and the fields are the initial state of the transition system |
| PipelineCode.Pool.Start | internal/worker/pool.go:169-176 | Start sets started and nothing else |
| PipelineCode.Pool.Enqueue | internal/worker/pool.go:243-284 | Which of the six outcomes Enqueue returns and the whole state it leaves: the job at the end of ingest iff accepted, its context cancelled iff built and rejected |
| PipelineCode.Pool.ShutdownOnce | internal/worker/pool.go:289-294 | The body of shutdownOnce.Do stops the pipeline and closes ingest, and changes nothing else |
| PipelineCode.Pool.Round | internal/worker/pool.go:198-238 | One round of the loop in runStage that does not block (an exit on an empty channel only where it is closed, one on the job base only where that is cancelled): which way it goes and the whole state it leaves |
| PipelineCode.Pool.RunStage | internal/worker/pool.go:198-238 | The loop of runStage: rounds until the worker exits or a select would block, and the whole state that leaves |
| PipelineRuns.RunStageIsRun | internal/worker/pool.go:198-238 | The loop of runStage, uninterrupted, is a run of the transition system ending in the state the method leaves |
| PipelineRuns.EnqueueIsRun | internal/worker/pool.go:243-284 | Enqueue, uninterrupted, is a run of the transition system ending in exactly the state the method leaves |
| PipelineRuns.ShutdownOnceIsRun | internal/worker/pool.go:289-294 | The body of shutdownOnce.Do, uninterrupted, is a run of the transition system ending in the state the method leaves |
| PipelineRuns.RoundIsRun | internal/worker/pool.go:198-238 | A round of runStage, uninterrupted, is a run of the transition system ending in the state the method leaves |
| PipelineMoves.WorkOthers | internal/worker/pool.go:198-238 | A worker's step moves no job but its own |
| StoreSafety.InvStep | internal/store/store.go:83-134 | Every step of a doWrite, a Close or the writer keeps the store's invariant |
| StoreTheorems.NeverPanics | internal/store/store.go:86-106 | No send on and no second close of writes; the writer never waits for room in a reply slot |
| StoreTheorems.RunsAtMostOnce | internal/store/store.go:91-114 | An operation runs at most once and only if handed over; a doWrite that returns an operation's result returns its own; one that returns before the hand-off never runs; one that gives up after the hand-off was handed over and has run or is being executed |
| StoreTheorems.RunsInHandOffOrder | internal/store/store.go:83-106 | Operations run one at a time in the order of the hand-offs |
| StoreTheorems.CloseFlushes | internal/store/store.go:117-133 | When the Close that closed the channel returns, every operation handed over has run exactly once, in particular that of every doWrite that gave up after the hand-off |
| StoreTheorems.NothingRunsAfterClose | internal/store/store.go:117-133 | After that no operation runs in any continuation |
| StoreTheorems.RunsInsideItsCall | internal/store/store.go:91-114 | Linearization: when a doWrite returns its operation's result, the operation ran after the call began and before it returned, and the runs in order are the log |
| StoreTheorems.RunsAreFinite | internal/store/store.go:83-134 | No run is longer than the measure of its first state |
| StoreTheorems.StuckMeansFinished | internal/store/store.go:99-133 | Deadlock freedom without counting on any cancellation: where nothing else can step every doWrite and every Close has returned, and after a Close the writer is gone |
| StoreRefinement.Refines | internal/store/store.go:83-134 | Each step of the concurrent store is a step of a sequential database (an operation runs, or a call is told its result) or leaves it as it is |
| StoreRefinement.RunRefinesSequential | internal/store/store.go:83-134 | Over every run the table is the replay of the log on the first table and the abstraction makes only sequential steps |
| StoreCode.SingleWriter.Execute | internal/store/store.go:167-199 | One Create, Save or Delete on the table: refused or applied whole; Create refuses a known id |
| StoreCode.SingleWriter.WriterLoop | internal/store/store.go:83-89 | The range loop over the operations handed over: all of them, in order, and the table is their replay |
| StoreCode.SingleWriter.DoWrite | internal/store/store.go:91-115 | The result and the table doWrite leaves for a dead context, a stopped store, a late cancellation and the plain case |
| StoreCode.SingleWriter.Close | internal/store/store.go:117-133 | Close stops the store and closes the channel at most once |
| StoreCode.DoWriteIsRun | internal/store/store.go:91-115 | doWrite, uninterrupted, is on each of its paths (dead context, closed store, late cancellation, plain) a run of the transition system that ends with the result the method returns and runs the operation exactly where the method executes it |
| StoreCode.CloseIsRun | internal/store/store.go:117-133 | Close, uninterrupted, is a run of the transition system: the Close that closes the store waits and returns with the writer gone, any other returns at once |
| Text.SplitJoin | internal/ocr/clean.go:14-63 | Splitting joined lines gives the lines back |
| Clean.CollapseLines | internal/ocr/clean.go:14-50 | The first loop of CleanText against its specification |
| Clean.DropTrailingLines | internal/ocr/clean.go:52-61 | The second loop of CleanText against its specification |
| Clean.CleanText | internal/ocr/clean.go:8-64 | CleanText computes the cleaned text the theorems are about |
| CleanTheorems.TrimFencesIs | internal/ocr/ollama.go:360-373 | What trimOCRFences leaves is trimmed, has no later fence line, and is shorter whenever the text began with a fence |
| CleanResults.FencedBody | internal/ocr/ollama.go:360-373 | Of a text with an opening fence, markdown or plain, and a closing one, trimOCRFences gives back what stands between them, trimmed |
| CleanResults.OpenBody | internal/ocr/ollama.go:360-373 | Without a closing fence it gives back everything after the opening one |
| CleanResults.UnfencedBody | internal/ocr/ollama.go:360-373 | A text without fences comes back as it is but for the space around it |
| CleanResults.SeparatorIff | internal/ocr/clean.go:66-68 | A separator line is one of dashes, bars, colons and spaces only |
| CleanResults.CleanTextIs | internal/ocr/clean.go:8-64 | The cleaned text is the lines without repeated blank ones and repeated separators, up to the last one that carries something |
| CleanTheorems.CleanKeepsContent | internal/ocr/clean.go:8-64 | Cleaning keeps every line that is neither blank nor a separator, trimmed, in order |
| CleanTheorems.CleanNormalForm | internal/ocr/clean.go:16-63 | No two adjacent blank lines, no two adjacent separators, and the last line is neither |
| CleanTheorems.CleanIdempotentIff | internal/ocr/clean.go:8-64 | CleanText is idempotent on s iff the fence-trimmed text of s does not itself start with a fence |
| CleanTheorems.FenceCleanedAgain | internal/ocr/ollama.go:360-373 | Where a second fence remains, cleaning again changes the text |
| CleanTheorems.TwoFences | internal/ocr/ollama.go:360-373 | There are such texts: every line that starts with six backticks and does not end in a space keeps three of them |
| CleanTheorems.CleanLength | internal/ocr/clean.go:8-64 | The cleaned text is no longer than the fence-trimmed one |
| RegexTheorems.MustHitHits | internal/extract/extract.go:32-43 | Where every path through a pattern passes a character class, every match contains such a character |
| RegexTheorems.NotFoundWithout | internal/extract/extract.go:32-43 | Such a pattern is not found in a text without such a character |
| RegexTheorems.FindAt | internal/extract/extract.go:195-206 | The matcher finds the first position where the pattern matches at all |
| ExtractTheorems.MetaHasLetter | internal/extract/extract.go:38 | Every match of metaLine contains a letter other than x |
| ExtractTheorems.PayHasLetter | internal/extract/extract.go:39 | Every match of payLine contains a letter other than x |
| Lexing.MoneyHasDigit | internal/extract/extract.go:33 | Every match of brMoney contains a digit |
| Extract.FindAmounts | internal/extract/extract.go:195-206 | The loop of parseAmounts: the values of the matches that parse, in order |
| Extract.FindQty | internal/extract/extract.go:223-243 | parseQty as it runs: prefix, then times, then inline, else zero |
| ExtractTheorems.StrippedIsTidy | internal/extract/extract.go:245-254 | What stripNumbers leaves of a line is trimmed and without equals signs |
| Extract.BuildItem | internal/extract/extract.go:153-181 | The in-place steps of itemFromLine that make the item; what they come to is stated of every item of a parse in ParseAnswers.ItemsSay |
| Extract.Parse | internal/extract/extract.go:46-116 | The loops of Parse against their specification |
| Extract.Incomplete | internal/extract/extract.go:119-143 | The loop of Incomplete; what it answers is stated field by field in ParseAnswers.IncompleteIff |
| ExtractTheorems.SeparatorSkipped | internal/extract/extract.go:54-95 | A separator line leaves every part of the loop state of Parse as it is |
| ExtractTheorems.ScanIsContent | internal/extract/extract.go:54-95 | The loop of Parse reads only the lines that are neither blank nor separators |
| ExtractTheorems.CleanPreservesParse | internal/invoice/service.go:383-384 | For every text, Parse of the cleaned text is Parse of the fence-trimmed text, for any patterns whose line patterns need a letter and whose amounts need a digit |
| ExtractTheorems.CleanPreservesGoParse | internal/invoice/service.go:383-384 | The same for the patterns of the program, whatever the letters beyond ASCII are |
| ExtractTheorems.PatternsAreWordy | internal/extract/extract.go:32-43 | The patterns of the program are such patterns |
| ExtractTheorems.ParseIs | internal/extract/extract.go:54-116 | Told from the lines alone: every line with an amount that is not a meta line gives one item or sets the total; the last total set is the estimate; without one the two totals agree |
| ParseAnswers.MoneyLineSays | internal/extract/extract.go:153-181 | A line with an amount that is not a meta line: its amounts, its quantity or one, its own description unless that is junk |
| ParseAnswers.OtherLineSays | internal/extract/extract.go:54-95 | A line without one is a meta line, announces a payment, names a product if it has a letter, or says nothing |
| ParseAnswers.ItemsSay | internal/extract/extract.go:153-181 | Every item of a parse, of its line: the first amount is the unit amount; a single amount counts as often as the quantity says, of several the last is the line total; the description is the line's own, else the pending one, else the placeholder |
| ParseAnswers.IncompleteIff | internal/extract/extract.go:119-151 | Incomplete unless there are items, a total was found, the totals are within 0.05 and every item has a description other than the placeholder and, where all three are positive, quantity times unit within 0.05 of its line |
| ParseAnswers.CompleteTextIff | internal/extract/extract.go:119-151 | The same told from the lines of a text: some line gives an item, some line gives a total, the totals agree, and every item line is fine |
| ParseAnswers.NoTotalIsIncomplete | internal/extract/extract.go:124-126 | A text no line of which gives a total is incomplete |
| ParseAnswers.NoItemIsIncomplete | internal/extract/extract.go:119-123 | A text no line of which gives an item is incomplete |
| Receipt.ItemLinesAre | internal/extract/extract.go:54-95 | Each such line gives an item exactly when it sets no total, each once and in order |
| Receipt.Round2IsNearest | internal/extract/extract.go:256-258 | round2 gives the nearest number of cents, halves away from zero |
| ExtractTheorems.CompleteParseBound | internal/extract/extract.go:119-151 | If the result of Parse is not Incomplete, the sum of quantity times unit amount (of the line total where the unit amount is zero) is within 0.05*(n+1)+0.005 of the estimated total |
| ExtractTheorems.CompleteTimesBound | internal/extract/extract.go:119-151 | With all unit amounts positive that is the sum of quantity times unit amount |
| ExtractTheorems.ItemsAgreeIff | internal/extract/extract.go:119-151 | Each item of a complete result has quantity times unit amount within 0.05 of its line exactly if none is priced at zero with more than 0.05 on its line |
| ExtractTheorems.CompleteTimesGap | internal/extract/extract.go:119-151 | In general the sum of quantity times unit amount falls short of the first sum by exactly what the lines of the items priced at zero say; with that added, the bound holds for every complete result |
| ZeroUnits.ZeroUnitEscapes | internal/extract/extract.go:145-151 | So without that condition the bound is false: for every positive price c a float64 can hold, Parse of the lines "x", "0,00 c" and "total c" is complete and the sum of quantity times unit amount is off by c |
| Lexing.GroupedTaken | internal/extract/extract.go:33 | What the dot-grouped alternative takes: digits and dots with three digits after each, a comma and two digits |
| Lexing.PrefersComma | internal/extract/extract.go:33 | Where a comma amount can be read it is the preferred match and ends at its cents |
| Lexing.PrefersPoint | internal/extract/extract.go:33 | A point amount with no digit after it is read to its end |
| MoneyTheorems.FindsAmount | internal/extract/extract.go:195-206 | After text in which no amount starts and none runs into it, with or without a currency sign, the match is the amount |
| MoneyTheorems.FoundIff | internal/extract/extract.go:33 | The money pattern finds something in a line iff a digit, a point or comma, and two digits stand in a row |
| MoneyTheorems.AmountsRoundTrip | internal/extract/extract.go:195-221 | Amounts in cents written in any of the three shapes, with any text around and between them that begins no amount of its own and has no digit next to one, are read back exactly, in order and nothing else; an amount too large for a float64 is left out |
| MoneyTheorems.AmountRoundTrip | internal/extract/extract.go:195-221 | The same for one amount |
| MoneyTheorems.AmountDroppedIff | internal/extract/extract.go:208-221 | A written amount is dropped iff it is at least 2^1024 - 2^970: the exact condition under which a match fails to parse |
| MoneyTheorems.MatchesAreCents | internal/extract/extract.go:195-221 | Every match in any line is worth its digits read as cents, and fails to parse only when that is too large |
| Money.RenderParses | internal/extract/extract.go:208-221 | Every rendering of an amount parses to that amount |
| Quantities.TimesRead | internal/extract/extract.go:223-243 | A number, whole or with a fraction, and one of x, X, × and * after it at the start of a line are its quantity, with any space around and between |
| Quantities.PrefixRead | internal/extract/extract.go:223-243 | qtd, qty, quant or quantidade in any case at the start of a line and a number after it, with space or one of : x × * between, are its quantity, whatever else the line says |
| Quantities.InlineRead | internal/extract/extract.go:223-243 | A number with x, un, unid, pc or pcs after it, in any case, is the quantity wherever it stands after text without digits, if the line starts with no quantity word |
| Preference.WordRun | internal/extract/extract.go:32-43 | A word in a pattern matches exactly where it is spelled, in either case, and in one way |
| Preference.NumeralParses | internal/extract/extract.go:208-221 | A number written with a comma, a point or neither is read as its value |
| Quantities.BarcodeStripped | internal/extract/extract.go:191-193 | A product name loses the barcode of eight digits or more in front of it and nothing else |
| Quantities.ShortCodeKept | internal/extract/extract.go:191-193 | A line that does not begin with eight digits keeps its start |
| Keywords.MetaFound | internal/extract/extract.go:38 | CNPJ, CPF, CNPJ/CPF, IE, IM or inscrição, with or without accents and capitals, at the start of a line makes it a meta line, whatever follows the word |
| Keywords.PayFound | internal/extract/extract.go:39 | pagamento, cartão, dinheiro anywhere, or pix alone, is found: a line with one and no amount announces a payment unless it is a meta line |
| Keywords.TotalFound | internal/extract/extract.go:37 | total, valor total and amount due, standing alone anywhere in a line, are found and make its last amount the total |
| Descriptions.FieldsOfJoin | internal/extract/extract.go:245-254 | Words joined by single spaces are the words that are read |
| Descriptions.TimesTaken | internal/extract/extract.go:245-254 | A quantity with a times mark in front and an amount are taken out of a line; the words of the rest are left, with single spaces |
| Descriptions.PrefixTaken | internal/extract/extract.go:245-254 | So are a quantity word with its number and an amount |
| Descriptions.InlineTaken | internal/extract/extract.go:245-254 | So are a number with its unit, wherever it stands, and an amount |
| Descriptions.JunkIff | internal/extract/extract.go:42 | A description is junk iff it is made of spaces, times marks, equals signs, points and hyphens alone |
| WrittenReceipts.ReceiptRoundTrip | internal/extract/extract.go:46-116 | A receipt written as any number of item lines (quantity, times mark, description, price) and a total line is read back whole: items in order with words, quantity, price and product, and the total as written |
| WrittenReceipts.WrittenIsCompleteIff | internal/extract/extract.go:119-143 | It is taken to be complete iff it has an item, its total is within five cents of the sum of the items, and no description is the placeholder |
| Jev.ScoreOf | internal/jev/client.go:352-375 | scoreOf as it runs: score and confidence as answered, and whatever the legend says the label is low below 0.75, medium below 1.5, else high |
| Jev.VerdictPromises | internal/jev/client.go:309-337 | ItemsConfirmed is the negation of NeedsReview and implies totals within 0.05; the effective routing is never other and differs from the suggested one only to be review |
| Jev.VerdictRecords | internal/jev/client.go:301-338 | The verdict records each answer as it came, labels the risk by its score, routes to review exactly where the routing is other or below 0.6, and needs review exactly when an answer is below its bar or the totals are more than 0.05 apart |
| Jev.VerdictReadsTotals | internal/jev/client.go:309-337 | Of the extract only the totals enter the verdict |
| Jev.HasFactor | internal/jev/explain.go:226-234 | hasFactor iff the id is listed |
| Jev.Explain | internal/jev/explain.go:64-131 | The loop of Explain against its specification |
| ExplainTheorems.DeterminantsDistinct | internal/jev/explain.go:91-111 | No determinant is listed twice |
| ExplainTheorems.ListedIff | internal/jev/explain.go:85-111 | Which determinants are listed, each exactly where its own field of the row is below its bar, the totals are apart, or the routing is other or uncertain |
| ExplainTheorems.ShownWords | internal/jev/explain.go:197-211 | The word shown for each routing |
| ExplainTheorems.ReviewIsExplained | internal/jev/explain.go:91-111 | On a row whose verdict was composed for its totals, NeedsReview iff some determinant other than effective_routing is listed |
| ExplainTheorems.RoutingIsExplainedIff | internal/jev/explain.go:104-111 | Effective routing is review iff routing or effective_routing is listed, exactly unless the model confidently suggested review |
| ExplainTheorems.ShownRouting | internal/jev/explain.go:113-119 | The shown effective routing is the localized review iff the row holds review or that word itself |
| Cache.MemoryCache.constructor | internal/cache/ocr.go:21-26 | A new cache is empty |
| Cache.MemoryCache.Get | internal/cache/ocr.go:34-57 | What Get returns and what it leaves: a hit, a miss, or an expired entry dropped |
| Cache.MemoryCache.Set | internal/cache/ocr.go:60-67 | Set stores the entry with the current time and nothing when disabled |
| Cache.MemoryCache.GetStats | internal/cache/ocr.go:76-92 | Stats of an enabled cache, zeros of a disabled one |
| Cache.GetFindsLastSet | internal/cache/ocr.go:34-67 | Over any run of Gets and Sets with a clock that does not go back, Get finds exactly the entry stored last for the text unless that is older than a positive time to live; with none nothing expires |
| Cache.HitsAreServed | internal/cache/ocr.go:34-57 | The hits are the number of Gets that found an entry, the misses that of the others |
| Cache.GetsAreCounted | internal/cache/ocr.go:34-57 | Hits and misses add up to the Gets of an enabled cache; a disabled one stays empty |
| Invoice.ExtractChanged | internal/invoice/service.go:579-600 | The scan of extractChanged: items or a total differ and there are items; FoundTotal is not looked at |
| StageAnswers.EscalateIff | internal/invoice/service.go:467-489 | A text needs escalation, and its confidence is zero, exactly if its trimmed form has fewer than 40 bytes or its parse is incomplete |
| StageAnswers.RecognizeOneIs | internal/invoice/service.go:368-388 | An engine's reading is its text cleaned, the parse of that, and confidence one exactly where no escalation is needed; the parse is that of the text without its fences |
| StageAnswers.CascadeIs | internal/invoice/service.go:305-366 | Something is read iff an engine reads something; it is Tesseract's text iff that was read and has items, or needs no escalation, or the minimum is zero, or Ollama read nothing; otherwise Ollama's |
| StageAnswers.PreprocessIs | internal/invoice/service.go:224-244 | StagePreprocess goes on exactly if the image could be prepared, and fails with its own cause otherwise |
| StageAnswers.OcrIs | internal/invoice/service.go:247-303 | StageOCR fails exactly if no engine read anything; otherwise it goes on with the chosen reading, its items and totals on the row, the cache's entry for its text, and the lookup counted |
| StageAnswers.OpenRouterIs | internal/invoice/service.go:734-766 | The fallback is asked where it is there and the confidence is below the minimum; asked, it replaces the reading or fails |
| StageAnswers.JudgeIs | internal/invoice/service.go:495-567 | No judgment comes out exactly if there is no judge or the answers it depends on are missing (the second ones where the assistant changed the extract, else the first); otherwise it is the verdict on those answers and the extract that comes out |
| StageAnswers.JudgedAsItIs | internal/invoice/service.go:507-524 | Without an assistant, or with a complete extract, the first answers decide and nothing else changes |
| StageAnswers.JevFailsIff | internal/invoice/service.go:602-681 | Without a hit a job fails exactly if OpenRouter was asked and read nothing, or there is no judge, or those answers are missing, each with its own cause |
| StageAnswers.JevDoneIs | internal/invoice/service.go:602-681 | A fresh result: the row shows the extract that was judged, the verdict on it and what the assistant said, and the cache entry the same |
| StageAnswers.HitIs | internal/invoice/service.go:683-732 | A hit: the row shows the entry's extract, its verdict and its own assistant notes, model and flag |
| StageAnswers.HitRepeats | internal/invoice/service.go:683-732 | A hit repeats the row that filled the cache, assisted or not |
| StageAnswers.DoneIsFound | internal/invoice/service.go:653-664 | What a done job stores is found under its text until it is too old, and no other text is touched |
| InvoiceTheorems.CoherentPromises | internal/invoice/service.go:692-712 | What a coherent row keeps of its verdict: ItemsConfirmed is not NeedsReview and implies totals within 0.05 |
| InvoiceTheorems.OcrKeeps | internal/invoice/service.go:247-303 | Whatever the engines read, StageOCR leaves the parse of the text it stored, and any hit is a good entry for that text |
| InvoiceTheorems.OpenRouterKeeps | internal/invoice/service.go:734-766 | The OpenRouter fallback keeps that |
| InvoiceTheorems.JudgeIsAboutExtract | internal/invoice/service.go:495-567 | The judgment that comes out of judgeWithAssist was given on an extract with the items and totals that come out with it; a complete extract comes out as it went in |
| InvoiceTheorems.JevKeeps | internal/invoice/service.go:602-681 | On every path through StageJev a row handed over as done is coherent and the cache entry is good |
| InvoiceTheorems.SetKeeps | internal/invoice/service.go:653-664 | Storing a good entry keeps the cache good |
| InvoiceTheorems.HitIsFreshRun | internal/invoice/service.go:683-732 | For a text that needs no escalation and a deterministic judge, a hit hands over the very row of a fresh run, whatever OpenRouter and the assistant offer |
| Goroutines.AlwaysSeparate | internal/invoice/service.go:526-548 | Under any schedule the variables of each goroutine are as if it ran alone |
| Goroutines.AnyScheduleIsSequential | internal/invoice/service.go:526-566 | Every interleaving of the assist and judge goroutines gives the result of running them in sequence, re-evaluation included |
| Goroutines.CanJoin | internal/invoice/service.go:526-548 | From any point some schedule lets both finish |
| Service.Stages.StagePreprocess | internal/invoice/service.go:224-244 | StagePreprocess in place: the rows it saves and the invoice it leaves, for each outcome of its Updates and of Prepare |
| Service.Stages.StageOcr | internal/invoice/service.go:247-303 | StageOCR in place: invoice, job, cache and saved rows |
| Service.Stages.RecognizeCascade | internal/invoice/service.go:305-366 | The cascade in place, tied to the function of which StageAnswers.CascadeIs says whose reading comes out |
| Service.Stages.RecognizeOne | internal/invoice/service.go:368-388 | One engine in place, tied to the function StageAnswers.RecognizeOneIs is about |
| Service.Stages.ApplyOpenRouterOcr | internal/invoice/service.go:734-766 | The OpenRouter fallback in place |
| Service.Stages.ApplyAssist | internal/invoice/service.go:398-457 | applyAssist in place, once the assistant is asked |
| Service.Stages.JudgeWithAssist | internal/invoice/service.go:495-567 | judgeWithAssist in place, the two goroutines in sequence, tied to the function of which StageAnswers.JudgeIs says when a judgment comes out and on what |
| Service.Stages.ApplyCacheHit | internal/invoice/service.go:683-732 | applyCacheHit in place: the cached items, totals, verdict and assist fields |
| Service.Stages.StageJev | internal/invoice/service.go:602-681 | StageJev in place: invoice, job, saved row, and the cache filled only after a successful Update of a fresh result |
| Service.Stages.Fail | internal/invoice/service.go:768-790 | fail in place: status, error and NeedsReview, one Update |
| SystemStep.InitInv | cmd/api/main.go:68-82 | The service starts in a state of its invariant |
| SystemStep.InvStep | internal/invoice/service.go:149-198 | Every step of uploads, pipeline, stages, store and cache together keeps the invariant of the service |
| SystemStep.ShutDownIdle | cmd/api/main.go:220 | After a Shutdown of the started pipeline has returned no stage function is running |
| SystemTheorems.Lifecycle | internal/invoice/service.go:172-191 | For every invoice what has been written is a prefix of queued, processing, and one of done and failed; or, not accepted, of queued and deleted with no stage called |
| SystemTheorems.HistGrows | internal/invoice/service.go:229-232 | A step leaves what has been written about an invoice or adds to it |
| SystemTheorems.EndIsFinal | internal/invoice/service.go:712-717 | Once an invoice is done, failed or deleted no later step of any run writes about it |
| SystemTheorems.LateWriteIsSnapshot | internal/store/store.go:105-113 | Whenever an operation runs, however late, it writes the values the invoice had when it was submitted |
| SystemTheorems.FailedUpdateFreezes | internal/invoice/service.go:230-232 | After an Update has returned an error nothing in the rest of any run changes the invoice or what its job carries |
| SystemTheorems.StoredDoneIsCoherent | internal/invoice/service.go:615-633 | Every row stored as done is coherent, on every path that led to it |
| SystemTheorems.StoredDonePromises | internal/invoice/service.go:692-712 | So it keeps its verdict's promises and Explain agrees with it |
| SystemTheorems.TableIsLastWrite | internal/invoice/service.go:650-652 | The table holds an invoice as it was last written; a job that has finished is stored as done, and one that has failed in a stage is stored as failed unless an Update of it returned an error |
| SystemTheorems.ShutdownStoresAll | cmd/api/main.go:220 | When Shutdown has returned without the hard cancel, every accepted invoice is stored as done or failed unless one of its Updates returned an error, and as done exactly if its job has finished |
| SystemTheorems.CacheIsGood | internal/invoice/service.go:270-281 | In every reachable state each cache entry is a judgment of its own text, and of exactly the parse, unassisted, where that is complete |
| SystemTheorems.HitStoresFreshRow | internal/invoice/service.go:683-712 | In every reachable state a hit stores the row a run without the cache would have stored, where no escalation is needed and the judge is deterministic |
| SystemCache.OcrUsesCache | internal/invoice/service.go:270-281 | In every reachable state the OCR stage hands over the entry the cache has for the text it has read |
| SystemCache.StoredDoneIsCached | internal/invoice/service.go:653-664 | When the store has taken a fresh result the cache finds it |
| SystemTheorems.StagesNeverSeeClosed | cmd/api/main.go:78-82 | No stage ever gets ErrClosed from the store |
| SystemTheorems.StagesMove | internal/invoice/service.go:224-303 | Nothing but the store keeps a stage waiting |
| SystemLiveness.StepDecreases | internal/invoice/service.go:149-198 | One measure over uploads, stages, pipeline and store drops on every step of the service |
| SystemLiveness.RunsAreFinite | internal/worker/pool.go:198-314 | No run of the service is longer than the measure of its first state |
| SystemLiveness.StuckMeansServed | internal/worker/pool.go:198-314 | Deadlock freedom of the whole service without counting on any cancelled context or timeout: where nothing else can step every upload is answered, every stage function has returned, no write is under way, every Shutdown and after it every Close has returned; and short of a hard cancel every accepted invoice has reached its end in the store unless an Update of it returned an error |
| SystemLiveness.EveryRunCanFinish | internal/worker/pool.go:198-314 | From every state of the invariant a run without cancelled contexts and timeouts leads to such a state |

## Left out

- PipelineCode.Pool.Start: the worker and closer goroutines are there from the start and cannot step before `started` is set; deriving the job base from the context is not modelled beyond its cancellation.
- StoreCode.SingleWriter.Close: waiting for the writer is not in the method's contract; it is in the transition system, in `StoreCode.CloseIsRun` and in `StoreTheorems.CloseFlushes`.
- Start called more than once, and the data race on `started` between Start and Enqueue: the model starts a pipeline at most once, in one step.
- The early returns of main before the pipeline runs: the model closes the store only after a Shutdown of the started pipeline has returned.
- Wall-clock time: timeouts are choices; elapsed milliseconds, token usage and cost are not modelled, nor that the usage of the first judge call is dropped when the judge runs twice.
- Floating-point rounding: sums and products are exact. A float64 overflow in a sum or product, which would make JSON encoding of the items fail the job, does not happen in the model.
- JSON encoding of items, log messages, previews, file paths, MIME resolution, id generation and file writes; an upload that fails before its row is created.
- HTTP clients, retries and backoff, the prompts, the assistant's own parsing of its answer: the answers are inputs.
- Redis cache, PostgreSQL store, listing, reading and batch operations; GORM and SQLite internals.
- Concurrent deletion of an expired cache entry: Get and Set of the cache are single steps.
- An upload whose context is dead when it is rolled back keeps its queued row, and a job cut off by a hard cancel or an expired context keeps its processing row: the model has these runs, and the lifecycle theorem allows them.
- Localized labels other than the routing shown by Explain, the reason texts of its determinants, the instructions of its questions, and what it repeats of the assistant's notes.
- Invalid UTF-8 in OCR text.
