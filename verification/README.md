# A verified model of the sentiment pipeline

The pipeline takes a directory of customer-service conversations, stores each one, queues it,
has workers score its turns with a sentiment classifier, and writes one results row per
conversation with two metrics: an overall sentiment and a trajectory. Ingesters and workers
share three Postgres tables and nothing else; workers may crash, stall past their lease, or be
handed work that another worker still holds.

The project models that behaviour and proves what it keeps, for every input and every run.

* **The protocol** (`Protocol`, `Tables`): a transition system with one step per database
  round trip. Any ingester or worker may move next, a claim may take any claimable rows, a
  worker may crash anywhere, the clock is monotone. Histories of claims, scorings and enqueue
  epochs are kept beside the tables and read by no actor.
  * `Durability`: invariants of every run from empty tables.
  * `Leases`, `Scoring`: how often and how far apart a job is claimed and scored.
  * `Refinement`: with one content per key the whole concurrent system computes a function.
  * `Convergence`: with changing content and one orderly ingester the tables end up agreeing.
  * `Outcomes`: exactly which step can part a job's status, or hash, from its result, and
    which can replace a good result by a rejection.
  * `Races`: concrete runs in which the tempting invariants fail.
* **One process at a time** (`Store`, `Worker`, `Undisturbed`, `Recovery`, `Ingest`): the database as a class
  whose methods are statements and transactions, `process_one`, the `run --once` loop and the
  ingest loop, proved against functions of the tables, and tied back to the protocol.
* **The in-memory queue** (`FakeQueue`, `QueueAgreement`): the test double as a class, and a
  simulation against the ordered SQL claim.
* **The metrics** (`Sums`, `LeastSquares`, `SlopeTheory`, `Metrics`, `OverallTheory`,
  `MetricTheory`): weighted mean and least-squares slope over the reals.
* **Scoring plumbing** (`Sentiment`, `Schema`, `Result`): batching and scattering, parsing, and
  scoring in one order while reporting in another.

What the protocol does not keep is stated as exactly as what it keeps:

* "Dead if and only if rejected" holds in one direction in every run (`Outcomes.DeadMeansRejected`).
  The other direction survives every step but the duplicate skip of a rejected result
  (`Outcomes.StatusTellsStep`, over whole runs `Outcomes.StatusTellsThroughout`);
  `Races.DeadTurnsDone` is a run that loses it.
* "A finished job's result is for the job's content" survives every step but a close or a mark
  for other content, which neither checks (`Outcomes.HashTellsStep`, over whole runs
  `Outcomes.HashTellsThroughout`). Conditions on what is ingested that rule such steps out: one
  content per key (`Outcomes.OneContentHashTells`), or one orderly ingester
  (`Convergence.QueueConverges`). Each part of that discipline is needed: in
  `Races.ChangedContentIsLost` changed content is enqueued over work in hand, in
  `Races.TwoIngestersTear` there are two ingesters, in `Races.StoppedIngesterTears` the one is
  stopped between its two transactions. Each time a document is stored and never scored for its
  job, or scored for the wrong one.
* "A good result is never replaced by a rejection": with one content per key, a step replaces it
  if and only if it closes a claim beyond the delivery limit (`Outcomes.GoodResultStep`), and so
  over whole runs (`Outcomes.GoodResultThroughout`). `Races.GoodResultIsPoisoned` is a run that
  does it, at every limit. The comment on the limit speaks of stopping retries; the code also
  overwrites a finished score.
* `delivery_count` has no bound (`Races.DeliveriesAreUnbounded`); the number of scorings has
  (`Scoring.BoundedScoring`).
* The test double is described as having the same behaviour as the real queue. After an entry is
  requeued with changed content the claims of the two are the same, at any time and batch, if and
  only if every entry behind it in the dictionary is finished (`QueueAgreement.RequeueAgreesIff`);
  as long as that is so both give the same answers to any calls (`QueueAgreement.QueuesAgree`).
* `score_texts` with a negative batch size and something to score leaves slots empty and fails
  its own assertion; with size zero `range()` fails (`Sentiment.ScoreTexts`). The configuration
  accepts both. The failure passes through `process_one` and ends `run`, with the jobs in hand
  still claimed: `Worker.Run` and `Recovery.Recover` finish every job if and only if there is no
  unfinished job that the scorer fails on, and with a positive batch size there is none.

Assumptions: the classifier and the tokenizer answer each text on its own and always the same;
`content_hash` has no collisions and JSONB gives back the document that went in; all clocks are
one monotone clock; `exp(-recency_lambda)` is a decay in (0, 1], that is lambda >= 0, and `tanh`
is odd, strictly increasing and bounded by one; `label_threshold` and `trajectory_divisor` are
positive; floating-point numbers are real numbers.

Run `dafny verify dfyconfig.toml` in this directory.

## Model

| member | source | states |
|---|---|---|
| `Durability.DurableStep` | src/pipeline/worker.py:61-108 | every step of every actor keeps the invariant: blobs under their own identity, every job has a blob, every worker's pending row is honest and for its own key, terminal jobs have results |
| `Durability.OutcomesAreDurable` | src/pipeline/resultstore.py:47-80 | in every reachable state a done or dead job has a results row for its own key, each row is the score of the document its hash names or a max_delivery_exceeded row, and no row says blob_missing |
| `Durability.TablesGrow` | src/pipeline/resultstore.py:47-80 | no step drops a blob, a job or a result |
| `Durability.TerminalIsStable` | src/pipeline/queue.py:63-72 | a terminal job stays terminal after a step if and only if the step does not enqueue content the job does not track |
| `Leases.OneMoreClaim` | src/pipeline/queue.py:84-110 | claiming a claimable row extends its epoch's claims by the next number, more than a lease after every earlier one |
| `Leases.ClaimsLoggedStep` | src/pipeline/queue.py:84-110 | every step keeps job rows in agreement with the claim history of their current epoch |
| `Scoring.LeaseExclusion` | src/pipeline/queue.py:84-110 | in every reachable state the claims of one epoch are numbered 1, 2, 3, ... and any two are more than lease_seconds apart, so no (key, epoch, count) is handed out twice |
| `Scoring.BoundedScoring` | src/pipeline/worker.py:75-105 | in every reachable state an epoch has been scored at most max_delivery times, each under a different claim of that epoch |
| `Scoring.NoOverlapWithinLease` | src/pipeline/queue.py:35-39 | in every reachable state, two hands on the same job in the same epoch hold it under different numbers, and the later claim was made after the earlier one's lease had run out |
| `Scoring.AccountedStep` | src/pipeline/worker.py:61-108 | every step keeps: each claim in at most one pair of hands, scored at most once, never past the limit |
| `Refinement.ResultsRefineScoring` | src/pipeline/worker.py:61-108 | if every key is only ingested with one content, each results row is score_conversation of it up to scored_at, or a max_delivery_exceeded row for its hash; never blob_missing; any interleaving |
| `Refinement.ResultsSettle` | src/pipeline/worker.py:75-108 | in such a run, while no claim of the key exceeds max_delivery, a written result never changes again except in scored_at |
| `Refinement.TracedStep` | src/pipeline/worker.py:75-86 | a max_delivery_exceeded row is always the trace of an epoch with that many claims |
| `Convergence.QueueConverges` | src/pipeline/ingest.py:72-77 | with one ingester never stopped between its transactions and no changed enqueue of a held key, an idle ingester means job hash equals blob hash and every terminal job's result is for that content, its score or poison |
| `Convergence.ConvergingStep` | src/pipeline/ingest.py:72-77 | the inductive form: only the pending key may be out of step, and workers' pending rows and marks are for tracked content wherever the job tracks its blob |
| `Outcomes.DeadMeansRejected` | src/pipeline/worker.py:106-108 | in every reachable state a dead job's result is a rejection |
| `Outcomes.StatusTellsStep` | src/pipeline/worker.py:92-95 | "dead exactly when rejected" survives a step if and only if the step is not a duplicate skip of a rejected result |
| `Outcomes.HashTellsStep` | src/pipeline/resultstore.py:76-80 | "the result is for the tracked content" survives a step if and only if the step is not a close or mark for other content |
| `Outcomes.StatusTellsThroughout` | src/pipeline/worker.py:92-95 | over any run from empty tables, "dead exactly when rejected" holds in every state if and only if no step marks a rejection done |
| `Outcomes.HashTellsThroughout` | src/pipeline/resultstore.py:76-80 | over any run from empty tables, the result is for the tracked content in every state if and only if no step closes or marks for other content |
| `Outcomes.OneContentHashTells` | src/pipeline/resultstore.py:76-80 | if every key always comes with the same document, no run parts a result from the tracked content |
| `Outcomes.GoodResultStep` | src/pipeline/worker.py:75-108 | with one content per key, a result that is no rejection becomes one by a step if and only if the step closes a claim beyond max_delivery |
| `Outcomes.GoodResultThroughout` | src/pipeline/worker.py:75-108 | over any such run, from a state with a good result it is a rejection in no later state if and only if no later step closes a claim of the key beyond max_delivery |
| `Races.DeadTurnsDone` | src/pipeline/worker.py:92-95 | a run of any rejected document after which its job is done and its result rejected |
| `Races.GoodResultIsPoisoned` | src/pipeline/worker.py:75-95 | at every limit of at least one delivery and for every document that scores, a run in which its finished good score is replaced by a rejection |
| `Races.ChangedContentIsLost` | src/pipeline/resultstore.py:76-80 | a run with one ingester after which the job tracks new content, is finished with a result for the old, and enqueuing the new content again is a no-op |
| `Races.DeliveriesAreUnbounded` | src/pipeline/queue.py:97-101 | for every n a run in which the delivery count is n and nothing was scored or stored |
| `Races.TwoIngestersTear` | src/pipeline/ingest.py:72-77 | an orderly run of two ingesters after which the job tracks one document, and blob and result are the other |
| `Races.StoppedIngesterTears` | src/pipeline/ingest.py:72-77 | the same with one ingester, orderly but for being stopped between its two transactions |
| `Races.PoliteDocumentIsScored` | src/pipeline/result.py:113-115 | a concrete document with one customer turn is scored, when the classifier scores every text and the batch size is positive |
| `Races.BareDocumentIsRejected` | src/pipeline/schema.py:137-138 | a concrete document with an identity and no turns is rejected under every configuration |
| `Store.Database.UpsertBlob` | src/pipeline/blobstore.py:17-35 | the blob table afterwards: unchanged on the same hash, otherwise this key replaced |
| `Store.Database.Enqueue` | src/pipeline/queue.py:54-82 | true exactly when the content was not tracked; then a fresh queued row with count 0, otherwise nothing changes |
| `Store.Database.Claim` | src/pipeline/queue.py:84-110 | as many of the earliest-enqueued claimable rows as the batch allows are bumped once, no other row changes, and they are what is returned |
| `Store.Database.MarkDone` | src/pipeline/queue.py:112-117 | only the status of the named job changes |
| `Store.Database.CloseJobWithResult` | src/pipeline/resultstore.py:19-80 | results upsert and job status together or neither: refused exactly for a status other than done or dead, or a row without its key columns |
| `Worker.ProcessOne` | src/pipeline/worker.py:61-108 | outcome and both tables are those of the decision: poison first, then duplicate, then missing blob, then the score; raises and changes nothing exactly when the scorer fails; the outcome tells what the tables then hold |
| `Worker.OutcomeIsTelling` | src/pipeline/worker.py:75-108 | read off the tables: dead if and only if the job is, skipped if and only if a result for that hash was there within the limit, done if and only if a score that is no rejection was written; the reason and hash of each row written without scoring |
| `Worker.VerdictIsForItsKey` | src/pipeline/worker.py:75-108 | with blobs under their own identity every verdict writes the claimed key only, at the time it was made, and raises only when the scorer fails |
| `Worker.DeadExactlyWhenRejected` | src/pipeline/worker.py:92-108 | after one job, unless the scorer failed: terminal, with a result, and dead if and only if rejected, unless it was a duplicate skip of a rejection |
| `Worker.Run` | src/pipeline/worker.py:111-137 | `run(once=True)` terminates, returns how many jobs it finished, each of them claimed once more and settled by its decision, everything else unchanged, no row taken whose lease had not run out, every taken row bearing this worker's name, a full batch claimed at first and never more than one in hand, nothing claimable left; if all could be claimed it finishes all if and only if the scorer fails on none, else it raises on one, with the jobs in hand left claimed |
| `Undisturbed.UndisturbedIsProcessOne` | src/pipeline/worker.py:61-108 | with nobody else moving, however long a worker takes between its steps, they change the tables exactly as process_one does at the time it began, and leave it holding the rest of its batch, or failed with the scorer |
| `Undisturbed.UndisturbedIsBatch` | src/pipeline/worker.py:135-137 | undisturbed, a worker finishes every job it holds in order, with the tables of process_one applied to one after another, or stops at the first the scorer fails on with the rest in hand |
| `Undisturbed.ClaimThenBatch` | src/pipeline/worker.py:128-137 | an idle worker may claim any claimable rows up to a batch, and, undisturbed, finishes them all in the order handed out |
| `Protocol.ScoredAtStart` | src/pipeline/worker.py:71-105 | a score is stamped with the time its worker began on the job, however long ago |
| `Protocol.ScoringIsLogged` | src/pipeline/worker.py:97-105 | every call of the scorer is in the scoring log once, under its claim, so the bound on that log is a bound on calls |
| `Protocol.CloseStep` | src/pipeline/resultstore.py:47-80 | a close changes the two tables together and leaves the worker with the jobs after the first |
| `Protocol.MarkStep` | src/pipeline/queue.py:112-117 | a mark sets one status and leaves the worker with the jobs after the first |
| `Recovery.OpenBecomesClaimable` | src/pipeline/queue.py:89-93 | from any reachable state, once more than a lease has passed every unfinished job is claimable |
| `Recovery.CrashAndWaitLeadsTo` | src/pipeline/queue.py:35-39 | crashing every worker and waiting is always possible and changes no table |
| `Recovery.Recover` | src/pipeline/worker.py:126-137 | from any reachable state after all crash and a lease passes, run(once=True) finishes every job, each with a result, and returns the number that were unfinished, if and only if the scorer fails on no unfinished job; always with a positive batch size |
| `Recovery.RecoverOneContent` | src/pipeline/worker.py:61-137 | end to end with one content per key: after any run, a crash of all, a lease's wait and run(once=True), unless the scorer fails, every job is finished and its result is the score of its document up to scored_at, or poison |
| `Recovery.RecoverOrderly` | src/pipeline/worker.py:61-137 | end to end with changing content: after an orderly run of one ingester, idle at the end, the same holds for the content each key was last ingested with |
| `Ingest.IngestDirectory` | src/pipeline/ingest.py:39-83 | the loop's blobs, jobs, counts and dead letters are those of taking in the files one after another |
| `Ingest.EveryFileIsCounted` | src/pipeline/ingest.py:46-83 | files_seen is the number of files and equals enqueued + already_tracked + parse_errors; one dead letter per parse error |
| `Ingest.LettersNameTheLost` | src/pipeline/ingest.py:50-69 | dead letters name exactly the unreadable and unroutable files, each with its reason |
| `Ingest.LastWriterWins` | src/pipeline/ingest.py:58-77 | each key some file names holds, as blob and as job, the last such file's content; other keys are as before |
| `Ingest.DistinctKeysAreEnqueued` | src/pipeline/ingest.py:72-81 | into empty stores with one content per key, enqueued is the number of distinct keys, which are the keys of both tables |
| `Ingest.NothingIsEnqueued` | src/pipeline/ingest.py:75-81 | enqueued is zero if and only if every file's content is the tracked one, and then no job changes |
| `Ingest.ReingestIsQuietIff` | src/pipeline/ingest.py:72-81 | ingesting a directory again, whatever statuses its jobs have reached, enqueues nothing if and only if its files hold one content per key |
| `Ingest.ReingestChangesNothing` | src/pipeline/ingest.py:72-81 | in that case the second time changes no blob and no job |
| `Ingest.FileIsTwoSteps` | src/pipeline/ingest.py:71-77 | a routable file does to the tables what an idle ingester's two protocol steps do |
| `FakeQueue.FakeQueue.Enqueue` | src/pipeline/queue.py:135-143 | true exactly when the content was not tracked; a changed entry keeps its place, a new one goes last |
| `FakeQueue.FakeQueue.Claim` | src/pipeline/queue.py:145-166 | one pass claims exactly the first available rows up to the batch, bumps each once, and changes no other row and no place |
| `FakeQueue.FakeQueue.MarkDone` | src/pipeline/queue.py:168-171 | finishes the entry if there is one |
| `QueueAgreement.ChosenAreFirst` | src/pipeline/queue.py:149-166 | min(batch, available) distinct available rows, none of them behind an available row it leaves |
| `QueueAgreement.ChosenInOrder` | src/pipeline/queue.py:149-166 | the claim hands its rows out in the order of the dictionary |
| `QueueAgreement.SameRowsClaimed` | src/pipeline/queue.py:84-110 | in agreeing states any selection ordered by enqueue time is the set of rows the in-memory claim takes |
| `QueueAgreement.ClaimsAgree` | src/pipeline/queue.py:145-166 | both claims hand out the same jobs and the queues go on agreeing |
| `QueueAgreement.QueuesAgree` | src/pipeline/queue.py:129-171 | over any sequence of enqueue, claim and mark_done with distinct enqueue times, in which an entry is requeued with changed content only when all entries behind it are finished, both queues give the same answers |
| `QueueAgreement.RequeueAgreesIff` | src/pipeline/queue.py:135-166 | after a changed requeue the two claims take the same rows, at every time and batch, if and only if every entry behind it in the dictionary is finished |
| `QueueAgreement.ClaimsPart` | src/pipeline/queue.py:135-166 | when an unfinished entry stands behind, a time, a batch and a selection by which the table leaves the requeued entry and the dictionary takes it |
| `QueueAgreement.ChangedRequeueParts` | src/pipeline/queue.py:135-143 | two jobs, the first requeued with changed content: the table serves the second, the dictionary the first |
| `LeastSquares.DenominatorClosedForm` | src/pipeline/metrics.py:115-117 | the denominator is n(n+1)/(12(n-1)), hence positive, for every n >= 2 |
| `SlopeTheory.LeastSquaresOptimal` | src/pipeline/metrics.py:110-118 | no line has a smaller residual sum of squares than slope beta with intercept y_mean - beta*x_mean, and only that line attains it |
| `SlopeTheory.NormalEquation` | src/pipeline/metrics.py:110-118 | the residuals are orthogonal to the centred positions |
| `SlopeTheory.SharpSlopeBound` | src/pipeline/metrics.py:110-118 | for scores in [-1, 1] the slope is within the value attained by all-bad-then-all-good, which is at most 3n/(n+1) < 3, with equality for even n |
| `SlopeTheory.ExactLine` | src/pipeline/metrics.py:110-118 | scores on a line a + b*x give exactly slope b and intercept a |
| `SlopeTheory.DirectionIsRight` | src/pipeline/metrics.py:99-118 | nondecreasing and not constant gives a positive slope, nonincreasing a negative one, constant exactly zero |
| `SlopeTheory.ReversedScores` | src/pipeline/metrics.py:110-118 | reading the conversation backwards negates the slope |
| `SlopeTheory.SlopeIsRampSum` | src/pipeline/metrics.py:110-118 | beta * n(n+1) is six times the scores weighted by 2i-(n-1): the slope without means or divisions |
| `OverallTheory.BetweenExtremes` | src/pipeline/metrics.py:56-68 | the overall score lies between any bounds on the scored values, also in the zero-weight fallback |
| `OverallTheory.ScoreResponse` | src/pipeline/metrics.py:56-68 | changing one turn's score moves the result by that turn's share of the change, and a share is in [0, 1] |
| `OverallTheory.LaterCountsMore` | src/pipeline/metrics.py:44-45 | of two equally confident turns the later has the larger share |
| `OverallTheory.ConfidenceResponse` | src/pipeline/metrics.py:56-68 | raising one turn's confidence moves the result strictly towards that turn's score and not past it |
| `OverallTheory.OnePassForm` | src/pipeline/metrics.py:56-68 | the score is the quotient of two running totals updated by W = d*W + c, N = d*N + c*s |
| `OverallTheory.RecencyOrderIsExtremal` | src/pipeline/metrics.py:56-68 | among all orders of the same equally confident scores the rising one maximises and the falling one minimises the result |
| `MetricTheory.SilenceIsInvisible` | src/pipeline/metrics.py:36-38 | inserting an unscored turn anywhere changes neither metric |
| `MetricTheory.NullMeansUnmeasurable` | src/pipeline/metrics.py:51-54 | overall is null exactly when nothing was scored, trajectory exactly when fewer than two were; the reported counts are the scored turns |
| `MetricTheory.EachScoredTurnHasItsPair` | src/pipeline/metrics.py:36-38 | turns that all carry a signal give their own score and confidence, each in its place |
| `MetricTheory.OverallIsReported` | src/pipeline/metrics.py:51-82 | the reported score is the rounded quotient of the one-pass totals at the configured recency, or the rounded plain mean when their weight is zero; label by the configured threshold on the unrounded quotient, both ends included; basis and count |
| `MetricTheory.TrajectoryIsReported` | src/pipeline/metrics.py:105-126 | the reported slope is the rounded slope of the residual-minimising line, the value the rounded tanh of that slope over the configured divisor |
| `MetricTheory.LineIsReported` | src/pipeline/metrics.py:105-126 | the same for scores on a line, with the line's own slope |
| `MetricTheory.RoundingIs` | src/pipeline/metrics.py:79 | rounding gives the one whole number of ten-thousandths that is nearest, the even one of two |
| `MetricTheory.RoundingMonotone` | src/pipeline/metrics.py:79 | rounding to four places keeps order |
| `MetricTheory.RoundingIsNear` | src/pipeline/metrics.py:79 | and moves a value by at most half a unit of the last place |
| `MetricTheory.RoundingFixes` | src/pipeline/metrics.py:79 | and fixes every integer, so -1, 0 and 1 |
| `MetricTheory.ReportedRanges` | src/pipeline/metrics.py:77-126 | the reported score and value stay in [-1, 1] and the slope in [-3, 3], rounding included |
| `MetricTheory.TrajectoryShowsDirection` | src/pipeline/metrics.py:118-126 | the trajectory exists from two scored turns on and its sign is that of the change; a flat conversation reports exactly 0, not null |
| `MetricTheory.MirrorImage` | src/pipeline/metrics.py:70-126 | negating every score negates score, value and slope exactly, rounding included, swaps the label and keeps the rest |
| `Sentiment.ScoreTexts` | src/pipeline/sentiment.py:100-127 | every slot holds its own text's score, whatever the batch size; fails exactly on batch size zero, or negative with something to score |
| `Sentiment.ScoreBatches` | src/pipeline/sentiment.py:119-124 | batch after batch fills exactly the chosen slots, each with its own score |
| `Sentiment.Scatter` | src/pipeline/sentiment.py:123-124 | writes each score into its index's slot and touches no other |
| `Result.ScoreDocument` | src/pipeline/result.py:37-125 | parsing and batched scoring with their loops give the row of the pure reading, or fail: exactly for batch size zero with a turn to score, or a negative one with signal to score |
| `Schema.ParseTurns` | src/pipeline/schema.py:143-150 | the loop's kept and dropped lists |
| `Schema.TurnsArePartitioned` | src/pipeline/schema.py:143-150 | kept and dropped indices each increase strictly, and every position is in exactly one list as its own parse |
| `Schema.ParsingCoversTheArray` | src/pipeline/schema.py:121-167 | a parsed document loses no position; a rejection of the array means nothing in it was usable |
| `Schema.IntRoundTrip` | src/pipeline/schema.py:78-88 | an integer seq is taken as it is; one written out, with any spaces around it, is read back as that integer below 10 to the 4300 in magnitude, and as None from there on, where int() refuses |
| `Schema.UnderscoreIsReadOver` | src/pipeline/schema.py:83-87 | a single underscore between digits does not change what is read |
| `Schema.ReadIffWellFormed` | src/pipeline/schema.py:83-87 | digits are read if and only if they are digits with underscores only between two of them |
| `Schema.OnlyIntsAndStrings` | src/pipeline/schema.py:78-88 | nothing but an integer or a string with a digit is coerced, not even a boolean |
| `Schema.TurnIsUsable` | src/pipeline/schema.py:91-118 | each drop reason exactly under its condition, first reason first, and what is kept of a usable turn |
| `Schema.DocumentIsUsable` | src/pipeline/schema.py:127-167 | each rejection reason exactly under its condition, first reason first, and what is kept of a usable document |
| `Json.IdentityIs` | src/pipeline/ingest.py:58-65 | a document is routed to a key if and only if its two identity fields are those strings, neither empty |
| `Result.CustomersFirst` | src/pipeline/result.py:74-80 | what is sent to the scorer: the customer turns, then the agent turns if opted in, and nothing else |
| `Result.AlignmentThroughPermutation` | src/pipeline/result.py:74-100 | scoring customers first and agents after, and looking scores up by index, gives per_turn and both metrics as if each turn were scored in place |
| `Result.PerTurnOfDocument` | src/pipeline/result.py:83-96 | per_turn rises strictly in array index and holds exactly the customer and opted-in agent turns, each with its own score |
| `Result.AgentTurnsOnlyListed` | src/pipeline/result.py:75-78 | score_agent_turns changes per_turn and nothing else |
| `Result.DroppedOfDocument` | src/pipeline/result.py:101-123 | the row's own dropped turns rise in index and are exactly the positions that parse to a drop; partial or scored by whether there are any |
| `Result.MetricsOfDocument` | src/pipeline/result.py:98-100 | both metrics are those of the document's customer turns in array order, each with the score of its own text |
| `Result.RowEchoes` | src/pipeline/result.py:45-60 | identity, hash, schema version, model, time and each parameter of the row, field by field |
| `Result.StatusOfDocument` | src/pipeline/result.py:103-115 | rejected exactly without a customer turn with signal, partial exactly with signal and dropped turns; an error exactly when rejected, with its reason and detail |
| `Tables.RejectedRowIsRejectedBranch` | src/pipeline/worker.py:30-58 | a row written without scoring equals, field by field, what score_conversation gives a rejected document of that key, hash and reason |
| `Tables.ScoringIsReproducible` | src/pipeline/result.py:37-44 | two scorings of one document differ in scored_at only, which is the time passed in |

## Left out

- `Worker.Run`: a negative `claim_batch`, which Postgres refuses as a LIMIT, is excluded.
- `Worker.Run`: needs every blob stored under the identity it carries, as ingest stores it; a blob planted under another key would close some other job.
- `Store.Database.Claim`: the rows come back in the order they were selected; the SQL promises no order, and nothing proved depends on it.
- `Sentiment.ScoreBatch`: stands for the model's forward pass; padding and truncation of a batch are taken not to change any text's answer.
- `Schema.IntRoundTrip`: `int()` is modelled over ASCII digits, signs, spaces and underscores, not over other Unicode digits.
- Postgres locking: a statement or transaction is one atomic step; SKIP LOCKED appears in the protocol as the freedom of a claim to pass over any rows, and there without the order by enqueue time.
- Identity columns that are not strings: such a document is never ingested; storing its row is treated as refused, where Postgres would convert some values.
- An integer of more than 4300 digits in a file: reading it raises an error that ingest does not catch; here such a file can only be given as unreadable.
- Strings that JSONB or UTF-8 encoding refuse (NUL characters, lone surrogates), on which ingest raises.
- A worker whose commit is refused stops at that point; in the protocol only a crash can follow.
- `last_error`, `blob_key`, `ingested_at` and `seen_at` columns: written or derived, never read by the modelled code.
- Error details are kept as data, not as formatted text; exception messages of unreadable files are given.
- The rows of the in-memory queue are values in a map, not objects: they are never shared outside the queue.
- The endless loop of `run` without `once`, with its sleep: its claim and processing are the protocol's steps.
- Sorting file names and reading files: the directory is the sequence of what reading each file came to.
- Rounding error of floating-point arithmetic, the definitions of `exp` and `tanh`, model loading, the tokenizer and the signal regexes.
- The command line, configuration parsing, migrations runner, connection pool, benchmarks and sample data: input and output around the modelled code.
