/** Runs that break what does not hold: why each theorem needs its hypotheses. */
module Races {
  import opened Prelude
  import opened Json
  import opened Config
  import opened Schema
  import opened Result
  import opened Tables
  import opened Protocol
  import opened Scoring
  import opened Outcomes
  import opened Convergence

  /** Two workers and one ingester at work on one key. */
  ghost predicate Looks(s: State, key: Key, clock: int, blob: Blob, job: Job, results: map<Key, ResultRow>,
                        epoch: nat, w0: WorkerState, w1: WorkerState, ingester: Ingester)
  {
    && s.clock == clock
    && s.blobs == map[key := blob]
    && s.jobs == map[key := job]
    && s.results == results
    && s.epochs == map[key := epoch]
    && s.workers == [w0, w1]
    && s.ingesters == [ingester]
  }

  const IDLE := WorkerState([], Ready)

  function BlobOf(doc: Json): Blob {
    Blob(Sha256(doc), doc)
  }

  function Holds(key: Key, doc: Json, count: nat, epoch: nat): seq<Held> {
    [Held(ClaimedJob(key, Sha256(doc), count), epoch)]
  }

  // ---- Single moves -----------------------------------------------------------------------

  lemma Ingested(s: State, doc: Json, key: Key, env: Env)
    requires s == Init(2, 1, 0) && Identity(doc) == Some(key)
    ensures Enabled(s, IngestBlob(0, doc), env)
    ensures var t := Apply(s, IngestBlob(0, doc), env);
            && Enabled(t, IngestEnqueue(0), env)
            && Looks(Apply(t, IngestEnqueue(0), env), key, 0, BlobOf(doc), Job(Sha256(doc), Queued, None, None, 0, 0),
                     map[], 1, IDLE, IDLE, Idle)
  {
  }

  lemma ClaimedBy(s: State, w: nat, key: Key, doc: Json, clock: int, job: Job, epoch: nat, w0: WorkerState, w1: WorkerState,
                  env: Env)
    requires w < 2 && env.cfg.claimBatch >= 1 && job.hash == Sha256(doc)
    requires Looks(s, key, clock, BlobOf(doc), job, map[], epoch, w0, w1, Idle)
    requires Claimable(job, clock, env.cfg.leaseSeconds) && s.workers[w] == IDLE
    ensures Enabled(s, Claim(w, [key]), env)
    ensures var holder := WorkerState(Holds(key, doc, job.deliveryCount + 1, epoch), Ready);
            Looks(Apply(s, Claim(w, [key]), env), key, clock, BlobOf(doc), ClaimRow(job, w, clock), map[], epoch,
                  if w == 0 then holder else w0, if w == 1 then holder else w1, Idle)
  {
    hide LogClaims;
    var t := Apply(s, Claim(w, [key]), env);
    assert Elements([key]) == {key};
    assert Handed(s, [key]) == Holds(key, doc, job.deliveryCount + 1, epoch);
    assert t.jobs == map[key := ClaimRow(job, w, clock)];
  }

  /** A worker alone with a job, from picking it up to the row it is about to commit. */
  lemma ScoredBy(s: State, key: Key, doc: Json, job: Job, count: nat, clock: int, w1: WorkerState, env: Env)
    requires Looks(s, key, clock, BlobOf(doc), job, map[], 1, WorkerState(Holds(key, doc, count, 1), Ready), w1, Idle)
    requires count <= env.cfg.maxDelivery && !ScoringRaises(doc, env)
    ensures Feasible(s, [Begin(0), ReadResult(0), ReadBlob(0)], env)
    ensures var row := ScoreConversation(doc, env, clock);
            Looks(After(s, [Begin(0), ReadResult(0), ReadBlob(0)], env), key, clock, BlobOf(doc), job, map[], 1,
                  WorkerState(Holds(key, doc, count, 1), Closing(row, StatusFor(row))), w1, Idle)
  {
    hide ScoreConversation;
    hide ScoringRaises;
    hide Feasible;
    hide After;
    LooksUpResult(s, 0, env);
    var s2 := WithPc(s, 0, Fetching(clock));
    ReadyToRead(s2, env);
    hide Enabled;
    OneMore(s, [Begin(0), ReadResult(0)], ReadBlob(0), env);
    assert [Begin(0), ReadResult(0)] + [ReadBlob(0)] == [Begin(0), ReadResult(0), ReadBlob(0)];
    ReadBlobStep(s2, ReadBlob(0), env);
    hide Apply;
  }

  lemma ReadyToRead(s: State, env: Env)
    requires Busy(s, 0) && s.workers[0].pc.Fetching?
    ensures Enabled(s, ReadBlob(0), env)
  {
  }

  // ---- A claim --------------------------------------------------------------------------------

  /** Long enough for a lease to run out. */
  function Wait(env: Env): (d: nat)
    ensures d > env.cfg.leaseSeconds
  {
    if env.cfg.leaseSeconds < 0 then 0 else env.cfg.leaseSeconds + 1
  }

  /** A worker claims the only job. */
  lemma OneClaim(doc: Json, key: Key, env: Env) returns (steps: seq<Step>)
    requires Identity(doc) == Some(key) && env.cfg.claimBatch >= 1
    ensures Feasible(Init(2, 1, 0), steps, env)
    ensures Looks(After(Init(2, 1, 0), steps, env), key, 0, BlobOf(doc),
                  Job(Sha256(doc), Claimed, Some(0), Some(0), 1, 0), map[], 1,
                  WorkerState(Holds(key, doc, 1, 1), Ready), IDLE, Idle)
    ensures After(Init(2, 1, 0), steps, env).scorings == map[]
  {
    assert Init(2, 1, 0).scorings == map[];
    hide *;
    var s := Init(2, 1, 0);
    Ingested(s, doc, key, env);
    OneStep(s, IngestBlob(0, doc), env);
    NotScoring(s, IngestBlob(0, doc), env);
    NotScoring(After(s, [IngestBlob(0, doc)], env), IngestEnqueue(0), env);
    OneMore(s, [IngestBlob(0, doc)], IngestEnqueue(0), env);
    var job := Job(Sha256(doc), Queued, None, None, 0, 0);
    steps := [IngestBlob(0, doc)] + [IngestEnqueue(0)];
    FreshRow(job, doc, key, env);
    ClaimedBy(After(s, steps, env), 0, key, doc, 0, job, 1, IDLE, IDLE, env);
    NotScoring(After(s, steps, env), Claim(0, [key]), env);
    OneMore(s, steps, Claim(0, [key]), env);
    steps := steps + [Claim(0, [key])];
  }

  lemma NotScoring(s: State, step: Step, env: Env)
    requires Enabled(s, step, env) && !step.ReadBlob?
    ensures Apply(s, step, env).scorings == s.scorings
  {
    hide LogClaims;
    hide Handed;
    hide ClaimRows;
    hide Identity;
    hide RejectedRow;
    hide RowKey;
  }

  lemma FreshRow(job: Job, doc: Json, key: Key, env: Env)
    requires job == Job(Sha256(doc), Queued, None, None, 0, 0)
    ensures Claimable(job, 0, env.cfg.leaseSeconds)
    ensures ClaimRow(job, 0, 0) == Job(Sha256(doc), Claimed, Some(0), Some(0), 1, 0)
    ensures forall s, w0, w1 ::
              Looks(s, key, 0, BlobOf(doc), job, map[], 1, w0, w1, Idle) ==> s.workers == [w0, w1]
  {
  }

  // ---- Claims without end ------------------------------------------------------------------------

  /** A job whose workers crash before they finish can be claimed any number of times: its
      delivery count has no bound, although it is never scored at all. */
  lemma {:induction false} DeliveriesAreUnbounded(doc: Json, key: Key, env: Env, n: nat)
    returns (steps: seq<Step>, clock: int)
    requires Identity(doc) == Some(key) && env.cfg.claimBatch >= 1 && n >= 1
    ensures Feasible(Init(2, 1, 0), steps, env)
    ensures Looks(After(Init(2, 1, 0), steps, env), key, clock, BlobOf(doc),
                  Job(Sha256(doc), Claimed, Some(0), Some(clock), n, 0), map[], 1,
                  WorkerState(Holds(key, doc, n, 1), Ready), IDLE, Idle)
    ensures After(Init(2, 1, 0), steps, env).scorings == map[]
  {
    hide *;
    if n == 1 {
      steps := OneClaim(doc, key, env);
      clock := 0;
    } else {
      var start := Init(2, 1, 0);
      steps, clock := DeliveriesAreUnbounded(doc, key, env, n - 1);
      var job := Job(Sha256(doc), Claimed, Some(0), Some(clock), n - 1, 0);
      Stalls(After(start, steps, env), doc, key, job, clock, WorkerState(Holds(key, doc, n - 1, 1), Ready), env);
      NotScoring(After(start, steps, env), Crash(0), env);
      OneMore(start, steps, Crash(0), env);
      steps := steps + [Crash(0)];
      NotScoring(After(start, steps, env), Tick(Wait(env)), env);
      OneMore(start, steps, Tick(Wait(env)), env);
      steps := steps + [Tick(Wait(env))];
      clock := clock + Wait(env);
      ClaimedBy(After(start, steps, env), 0, key, doc, clock, job, 1, IDLE, IDLE, env);
      NotScoring(After(start, steps, env), Claim(0, [key]), env);
      OneMore(start, steps, Claim(0, [key]), env);
      steps := steps + [Claim(0, [key])];
    }
  }

  lemma Stalls(s: State, doc: Json, key: Key, job: Job, clock: int, holder: WorkerState, env: Env)
    requires job.hash == Sha256(doc) && job.status == Claimed && job.claimedAt == Some(clock)
    requires Looks(s, key, clock, BlobOf(doc), job, map[], 1, holder, IDLE, Idle)
    ensures Enabled(s, Crash(0), env)
    ensures var t, later := Apply(s, Crash(0), env), clock + Wait(env);
            && Enabled(t, Tick(Wait(env)), env)
            && Looks(Apply(t, Tick(Wait(env)), env), key, later, BlobOf(doc), job, map[], 1, IDLE, IDLE, Idle)
            && Apply(t, Tick(Wait(env)), env).workers == [IDLE, IDLE]
            && Claimable(job, later, env.cfg.leaseSeconds)
            && forall w :: ClaimRow(job, w, later)
                 == job.(claimedBy := Some(w), claimedAt := Some(later), deliveryCount := job.deliveryCount + 1)
  {
  }

  // ---- Two claims of one job -----------------------------------------------------------------------

  /** However often a job was claimed before: its worker stalls past its lease, and another
      worker claims the same job. */
  lemma TwoClaims(doc: Json, key: Key, env: Env, n: nat) returns (steps: seq<Step>, clock: int)
    requires Identity(doc) == Some(key) && env.cfg.claimBatch >= 1 && n >= 1
    ensures Feasible(Init(2, 1, 0), steps, env)
    ensures Looks(After(Init(2, 1, 0), steps, env), key, clock, BlobOf(doc),
                  Job(Sha256(doc), Claimed, Some(1), Some(clock), n + 1, 0), map[], 1,
                  WorkerState(Holds(key, doc, n, 1), Ready), WorkerState(Holds(key, doc, n + 1, 1), Ready), Idle)
  {
    hide *;
    var start := Init(2, 1, 0);
    steps, clock := DeliveriesAreUnbounded(doc, key, env, n);
    var job := Job(Sha256(doc), Claimed, Some(0), Some(clock), n, 0);
    var holder := WorkerState(Holds(key, doc, n, 1), Ready);
    StaleRow(After(start, steps, env), doc, key, job, clock, holder, env);
    OneMore(start, steps, Tick(Wait(env)), env);
    steps := steps + [Tick(Wait(env))];
    clock := clock + Wait(env);
    ClaimedBy(After(start, steps, env), 1, key, doc, clock, job, 1, holder, IDLE, env);
    OneMore(start, steps, Claim(1, [key]), env);
    steps := steps + [Claim(1, [key])];
  }

  lemma StaleRow(s: State, doc: Json, key: Key, job: Job, clock: int, holder: WorkerState, env: Env)
    requires job.hash == Sha256(doc) && job.status == Claimed && job.claimedAt == Some(clock)
    requires Looks(s, key, clock, BlobOf(doc), job, map[], 1, holder, IDLE, Idle)
    ensures Enabled(s, Tick(Wait(env)), env)
    ensures var t, later := Apply(s, Tick(Wait(env)), env), clock + Wait(env);
            && Looks(t, key, later, BlobOf(doc), job, map[], 1, holder, IDLE, Idle)
            && t.workers == [holder, IDLE]
            && Claimable(job, later, env.cfg.leaseSeconds)
            && forall w :: ClaimRow(job, w, later)
                 == job.(claimedBy := Some(w), claimedAt := Some(later), deliveryCount := job.deliveryCount + 1)
  {
  }

  /** The first worker scores and commits while the second still holds its own claim. */
  lemma SlowScorerCommits(doc: Json, key: Key, env: Env, n: nat) returns (steps: seq<Step>, clock: int)
    requires Identity(doc) == Some(key) && env.cfg.claimBatch >= 1 && 1 <= n <= env.cfg.maxDelivery
    requires !ScoringRaises(doc, env)
    ensures Feasible(Init(2, 1, 0), steps, env)
    ensures SlowlyScored(After(Init(2, 1, 0), steps, env), doc, key, env, n, clock)
  {
    hide *;
    var start := Init(2, 1, 0);
    steps, clock := TwoClaims(doc, key, env, n);
    var job := Job(Sha256(doc), Claimed, Some(1), Some(clock), n + 1, 0);
    var other := WorkerState(Holds(key, doc, n + 1, 1), Ready);
    ScoredBy(After(start, steps, env), key, doc, job, n, clock, other, env);
    RunsCompose(start, steps, [Begin(0), ReadResult(0), ReadBlob(0)], env);
    steps := steps + [Begin(0), ReadResult(0), ReadBlob(0)];
    Committed(After(start, steps, env), key, doc, BlobOf(doc), job, n, clock, clock, 1, other, env);
    OneMore(start, steps, Close(0), env);
    steps := steps + [Close(0)];
    assert SlowlyScored(After(start, steps, env), doc, key, env, n, clock) by {
      SlowlyScoredIs(After(start, steps, env), doc, key, env, n, clock);
    }
  }

  /** The score of the first claim is in, and the second worker has yet to begin. */
  ghost predicate SlowlyScored(s: State, doc: Json, key: Key, env: Env, n: nat, clock: int) {
    var row := ScoreConversation(doc, env, clock);
    Looks(s, key, clock, BlobOf(doc), Job(Sha256(doc), StatusFor(row), Some(1), Some(clock), n + 1, 0),
          map[key := row], 1, IDLE, WorkerState(Holds(key, doc, n + 1, 1), Ready), Idle)
  }

  lemma SlowlyScoredIs(s: State, doc: Json, key: Key, env: Env, n: nat, clock: int)
    requires var row := ScoreConversation(doc, env, clock);
             Looks(s, key, clock, BlobOf(doc), Job(Sha256(doc), StatusFor(row), Some(1), Some(clock), n + 1, 0),
                   map[key := row], 1, IDLE, WorkerState(Holds(key, doc, n + 1, 1), Ready), Idle)
    ensures SlowlyScored(s, doc, key, env, n, clock)
  {
    hide ScoreConversation;
    hide Looks;
  }

  /** The commit looks at neither the claimant nor the content of the job it closes. */
  lemma Committed(s: State, key: Key, doc: Json, blob: Blob, job: Job, count: nat, now: int, clock: int, epoch: nat,
                  w1: WorkerState, env: Env)
    requires Identity(doc) == Some(key)
    requires var row := ScoreConversation(doc, env, now);
             Looks(s, key, clock, blob, job, map[], epoch,
                   WorkerState(Holds(key, doc, count, 1), Closing(row, StatusFor(row))), w1, Idle)
    ensures Enabled(s, Close(0), env)
    ensures var row := ScoreConversation(doc, env, now);
            Looks(Apply(s, Close(0), env), key, clock, blob, job.(status := StatusFor(row)), map[key := row], epoch,
                  IDLE, w1, Idle)
  {
    hide ScoreConversation;
    hide ScoringRaises;
    ScoredRowFacts(doc, env, now);
    var row := ScoreConversation(doc, env, now);
    assert [Held(ClaimedJob(key, Sha256(doc), count), 1)][1..] == [];
    assert s.jobs[key := job.(status := StatusFor(row))] == map[key := job.(status := StatusFor(row))];
  }

  // ---- Two documents ----------------------------------------------------------------------------------

  /** A document without turns. */
  const BARE := Obj(map["tenant_id" := Str("t"), "conversation_id" := Str("c")])

  lemma BareDocumentIsRejected(env: Env)
    ensures Identity(BARE) == Some(Key("t", "c"))
    ensures ScoreBody(BARE, env).status == Rejected && !ScoringRaises(BARE, env)
  {
  }

  /** A document with one customer turn. */
  const GREETING := Obj(map["role" := Str("customer"), "text" := Str("hello"), "ts" := Str("2026-01-01T00:00:00Z")])

  const POLITE := Obj(map["tenant_id" := Str("t"), "conversation_id" := Str("c"), "turns" := Arr([GREETING])])

  lemma PoliteDocumentIsScored(env: Env)
    requires AlwaysScores(env.foreign) && env.foreign.hasSignal("hello") && env.cfg.batchSize > 0
    ensures Identity(POLITE) == Some(Key("t", "c"))
    ensures ScoreBody(POLITE, env).status == Complete && !ScoringRaises(POLITE, env)
  {
    hide AssembleBody;
    var turn := ParsedTurn(0, Customer, "hello", None, Some("2026-01-01T00:00:00Z"));
    assert ParseTurn(0, GREETING) == Kept(turn);
    assert [GREETING][..0] == [];
    assert KeptTurns([GREETING][..0]) == [] && DroppedTurns([GREETING][..0]) == [];
    assert KeptTurns([GREETING]) == [turn];
    assert DroppedTurns([GREETING]) == [];
    assert turn in ParseConversation(POLITE).conversation.turns;
    StatusOfDocument(POLITE, env);
  }

  // ---- Dead turned done -----------------------------------------------------------------------

  /** A rejected document, claimed twice: the slow worker commits the rejection and the job is
      dead, and then the other skips it as a duplicate and marks it done. */
  lemma DeadTurnsDone(doc: Json, key: Key, env: Env) returns (steps: seq<Step>)
    requires Identity(doc) == Some(key) && env.cfg.claimBatch >= 1 && env.cfg.maxDelivery >= 2
    requires ScoreBody(doc, env).status == Rejected && !ScoringRaises(doc, env)
    ensures Feasible(Init(2, 1, 0), steps, env)
    ensures var s := After(Init(2, 1, 0), steps, env);
            && key in s.jobs && s.jobs[key].status == Done && RejectedResult(s, key)
  {
    hide *;
    var start, clock := Init(2, 1, 0), 0;
    steps, clock := SlowScorerCommits(doc, key, env, 1);
    SkipsDuplicate(After(start, steps, env), key, doc, env, clock);
    RunsCompose(start, steps, [Begin(1), ReadResult(1)] + [Mark(1)], env);
    steps := steps + ([Begin(1), ReadResult(1)] + [Mark(1)]);
  }

  lemma SkipsDuplicate(s: State, key: Key, doc: Json, env: Env, clock: int)
    requires SlowlyScored(s, doc, key, env, 1, clock)
    requires Identity(doc) == Some(key) && env.cfg.maxDelivery >= 2 && ScoreBody(doc, env).status == Rejected
    ensures Feasible(s, [Begin(1), ReadResult(1)] + [Mark(1)], env)
    ensures var t := After(s, [Begin(1), ReadResult(1)] + [Mark(1)], env);
            key in t.jobs && t.jobs[key].status == Done && RejectedResult(t, key)
  {
    hide ScoreBody;
    var row := ScoreConversation(doc, env, clock);
    assert row.hash == Some(Sha256(doc)) && row.body.status == Rejected;
    hide ScoreConversation;
    hide Feasible;
    hide After;
    LooksUpResult(s, 1, env);
    var s2 := WithPc(s, 1, Marking);
    MarkStep(s2, Mark(1), env);
    OneMore(s, [Begin(1), ReadResult(1)], Mark(1), env);
    hide Apply;
    hide Enabled;
  }

  // ---- A good result poisoned -----------------------------------------------------------------

  /** Whatever the delivery limit: workers crash until the last delivery allowed is in the
      hands of one that stalls, and the job is delivered once more. The slow one scores the
      document well and the job is done; then the delivery beyond the limit replaces the score
      by a rejection, since the poison test comes before the duplicate test. */
  lemma GoodResultIsPoisoned(doc: Json, key: Key, env: Env) returns (first: seq<Step>, second: seq<Step>)
    requires Identity(doc) == Some(key) && env.cfg.claimBatch >= 1 && env.cfg.maxDelivery >= 1
    requires ScoreBody(doc, env).status != Rejected && !ScoringRaises(doc, env)
    ensures Feasible(Init(2, 1, 0), first, env) && Feasible(After(Init(2, 1, 0), first, env), second, env)
    ensures var s := After(Init(2, 1, 0), first, env);
            var t := After(s, second, env);
            && key in s.jobs && s.jobs[key].status == Done && key in s.results && !RejectedResult(s, key)
            && key in t.jobs && t.jobs[key].status == Dead && RejectedResult(t, key)
  {
    hide *;
    var start, clock := Init(2, 1, 0), 0;
    first, clock := SlowScorerCommits(doc, key, env, env.cfg.maxDelivery);
    second := [Begin(1), Close(1)];
    Poisons(After(start, first, env), key, doc, env, clock);
  }

  lemma Poisons(s: State, key: Key, doc: Json, env: Env, clock: int)
    requires env.cfg.maxDelivery >= 1 && SlowlyScored(s, doc, key, env, env.cfg.maxDelivery, clock)
    requires ScoreBody(doc, env).status != Rejected
    ensures key in s.jobs && s.jobs[key].status == Done && key in s.results && !RejectedResult(s, key)
    ensures Feasible(s, [Begin(1), Close(1)], env)
    ensures var t := After(s, [Begin(1), Close(1)], env);
            key in t.jobs && t.jobs[key].status == Dead && RejectedResult(t, key)
  {
    hide ScoreBody;
    hide ScoringRaises;
    var s1 := Apply(s, Begin(1), env);
    var job := ClaimedJob(key, Sha256(doc), env.cfg.maxDelivery + 1);
    assert s1.workers[1] == WorkerState([Held(job, 1)], Closing(PoisonRow(job, env.cfg, clock), Dead));
    OneStep(s1, Close(1), env);
    assert [Begin(1), Close(1)][1..] == [Close(1)];
  }

  // ---- Changed content lost ---------------------------------------------------------------------

  /** New content is stored and enqueued for a key while a worker is about to commit the score
      of the old one. The commit closes the requeued job: it is done, its result is for the old
      content, and ingesting the new content again enqueues nothing. */
  lemma ChangedContentIsLost(doc: Json, changed: Json, key: Key, env: Env) returns (steps: seq<Step>)
    requires Identity(doc) == Some(key) == Identity(changed) && doc != changed
    requires env.cfg.claimBatch >= 1 && env.cfg.maxDelivery >= 1 && !ScoringRaises(doc, env)
    ensures Feasible(Init(2, 1, 0), steps, env)
    ensures var s := After(Init(2, 1, 0), steps, env);
            && s.ingesters == [Idle] && key in s.jobs && Terminal(s.jobs[key])
            && key in s.blobs && s.blobs[key] == BlobOf(changed) && s.jobs[key].hash == Sha256(changed)
            && key in s.results && s.results[key].hash == Some(Sha256(doc))
            && (forall now :: Enqueue(s.jobs, key, Sha256(changed), now) == s.jobs)
  {
    hide *;
    var start := Init(2, 1, 0);
    steps := OneClaim(doc, key, env);
    var job := Job(Sha256(doc), Claimed, Some(0), Some(0), 1, 0);
    ScoredBy(After(start, steps, env), key, doc, job, 1, 0, IDLE, env);
    RunsCompose(start, steps, [Begin(0), ReadResult(0), ReadBlob(0)], env);
    steps := steps + [Begin(0), ReadResult(0), ReadBlob(0)];
    var row := ScoreConversation(doc, env, 0);
    var busy := WorkerState(Holds(key, doc, 1, 1), Closing(row, StatusFor(row)));
    Changed(After(start, steps, env), key, doc, changed, job, busy, env);
    OneMore(start, steps, IngestBlob(0, changed), env);
    steps := steps + [IngestBlob(0, changed)];
    OneMore(start, steps, IngestEnqueue(0), env);
    steps := steps + [IngestEnqueue(0)];
    var requeued := Job(Sha256(changed), Queued, None, None, 0, 0);
    Committed(After(start, steps, env), key, doc, BlobOf(changed), requeued, 1, 0, 0, 2, IDLE, env);
    OneMore(start, steps, Close(0), env);
    steps := steps + [Close(0)];
    Lost(After(start, steps, env), key, doc, changed, requeued, row, env);
  }

  lemma Changed(s: State, key: Key, doc: Json, changed: Json, job: Job, busy: WorkerState, env: Env)
    requires Identity(changed) == Some(key) && doc != changed && job.hash == Sha256(doc)
    requires Looks(s, key, 0, BlobOf(doc), job, map[], 1, busy, IDLE, Idle)
    ensures Enabled(s, IngestBlob(0, changed), env)
    ensures var t := Apply(s, IngestBlob(0, changed), env);
            && Enabled(t, IngestEnqueue(0), env)
            && Looks(Apply(t, IngestEnqueue(0), env), key, 0, BlobOf(changed),
                     Job(Sha256(changed), Queued, None, None, 0, 0), map[], 2, busy, IDLE, Idle)
  {
  }

  lemma Lost(s: State, key: Key, doc: Json, changed: Json, job: Job, row: ResultRow, env: Env)
    requires job.hash == Sha256(changed) && row == ScoreConversation(doc, env, 0) && Identity(doc) == Some(key)
    requires Looks(s, key, 0, BlobOf(changed), job.(status := StatusFor(row)), map[key := row], 2, IDLE, IDLE, Idle)
    ensures s.ingesters == [Idle] && key in s.jobs && Terminal(s.jobs[key])
    ensures key in s.blobs && s.blobs[key] == BlobOf(changed) && s.jobs[key].hash == Sha256(changed)
    ensures key in s.results && s.results[key].hash == Some(Sha256(doc))
    ensures forall now :: Enqueue(s.jobs, key, Sha256(changed), now) == s.jobs
  {
    hide ScoreBody;
  }

  // ---- One ingester, never stopped half-way -------------------------------------------------------------

  /** One idle worker; the stored document is not the one the queued job tracks. */
  ghost predicate Torn(s: State, key: Key, tracked: Json, stored: Json) {
    && s.clock == 0
    && s.blobs == map[key := BlobOf(stored)]
    && s.jobs == map[key := Job(Sha256(tracked), Queued, None, None, 0, 0)]
    && s.results == map[]
    && s.workers == [IDLE]
    && NothingPending(s)
  }

  /** The job is finished and tracks one document; the blob and the result are another. */
  ghost predicate EndsTorn(s: State, key: Key, tracked: Json, stored: Json) {
    && NothingPending(s)
    && key in s.jobs && Terminal(s.jobs[key]) && s.jobs[key].hash == Sha256(tracked)
    && key in s.blobs && s.blobs[key] == BlobOf(stored)
    && key in s.results && s.results[key].hash == Some(Sha256(stored))
  }

  const ONE_JOB := [Begin(0), ReadResult(0), ReadBlob(0), Close(0)]

  /** One worker holds the torn job and has got as far as `pc`. */
  ghost predicate TornInHand(s: State, key: Key, tracked: Json, stored: Json, pc: Pc) {
    && s.clock == 0 && s.blobs == map[key := BlobOf(stored)] && s.results == map[] && NothingPending(s)
    && s.jobs == map[key := Job(Sha256(tracked), Claimed, Some(0), Some(0), 1, 0)]
    && |s.workers| == 1 && s.workers[0].pc == pc && |s.workers[0].todo| == 1
    && s.workers[0].todo[0].job == ClaimedJob(key, Sha256(tracked), 1)
  }

  lemma TornIsClaimed(s: State, key: Key, tracked: Json, stored: Json, env: Env)
    requires Torn(s, key, tracked, stored) && env.cfg.claimBatch >= 1
    ensures Enabled(s, Claim(0, [key]), env)
    ensures TornInHand(Apply(s, Claim(0, [key]), env), key, tracked, stored, Ready)
  {
    hide LogClaims;
    assert Elements([key]) == {key};
    HandedAt(s, [key], 0);
  }

  lemma TornIsFetched(s: State, key: Key, tracked: Json, stored: Json, env: Env)
    requires TornInHand(s, key, tracked, stored, Ready) && env.cfg.maxDelivery >= 1
    ensures Feasible(s, [Begin(0), ReadResult(0)], env)
    ensures TornInHand(After(s, [Begin(0), ReadResult(0)], env), key, tracked, stored, Fetching(0))
  {
    hide RejectedRow;
    hide RowKey;
    hide Identity;
    hide Feasible;
    hide After;
    LocalStep(s, Begin(0), env);
    var s1 := Apply(s, Begin(0), env);
    assert TornInHand(s1, key, tracked, stored, Reading(0));
    LocalStep(s1, ReadResult(0), env);
    assert TornInHand(Apply(s1, ReadResult(0), env), key, tracked, stored, Fetching(0));
    Two(s, Begin(0), ReadResult(0), env);
  }

  lemma TornIsCommitted(s: State, key: Key, tracked: Json, stored: Json, env: Env)
    requires TornInHand(s, key, tracked, stored, Fetching(0))
    requires Identity(stored) == Some(key) && !ScoringRaises(stored, env)
    ensures Feasible(s, [ReadBlob(0), Close(0)], env)
    ensures EndsTorn(After(s, [ReadBlob(0), Close(0)], env), key, tracked, stored)
  {
    hide ScoreConversation;
    hide ScoringRaises;
    hide RejectedRow;
    hide Feasible;
    hide After;
    ScoredRowFacts(stored, env, 0);
    hide RowKey;
    hide Identity;
    var row := ScoreConversation(stored, env, 0);
    LocalStep(s, ReadBlob(0), env);
    var s1 := Apply(s, ReadBlob(0), env);
    assert TornInHand(s1, key, tracked, stored, Closing(row, StatusFor(row)));
    CloseStep(s1, Close(0), env);
    Two(s, ReadBlob(0), Close(0), env);
  }

  lemma {:induction false} WorkIsOrderly(s: State, steps: seq<Step>, env: Env)
    requires Feasible(s, steps, env)
    requires forall i :: 0 <= i < |steps| ==> !steps[i].IngestEnqueue? && !steps[i].IngestStop?
    ensures OrderlyRun(s, steps, env)
    decreases |steps|
  {
    hide Apply;
    hide Enabled;
    if steps != [] {
      assert Orderly(s, steps[0]);
      WorkIsOrderly(Apply(s, steps[0], env), steps[1..], env);
    }
  }

  lemma {:induction false} OrderlyRunsCompose(s: State, first: seq<Step>, second: seq<Step>, env: Env)
    requires Feasible(s, first, env) && Feasible(After(s, first, env), second, env)
    requires OrderlyRun(s, first, env) && OrderlyRun(After(s, first, env), second, env)
    ensures Feasible(s, first + second, env) && OrderlyRun(s, first + second, env)
    decreases |first|
  {
    hide Apply;
    hide Enabled;
    hide Orderly;
    RunsCompose(s, first, second, env);
    if first == [] {
      assert first + second == second;
    } else {
      assert (first + second)[0] == first[0] && (first + second)[1..] == first[1..] + second;
      OrderlyRunsCompose(Apply(s, first[0], env), first[1..], second, env);
    }
  }

  /** From a torn state the worker finishes the job with a result for the other document. */
  lemma TornToTheEnd(s: State, key: Key, tracked: Json, stored: Json, env: Env)
    requires Torn(s, key, tracked, stored) && env.cfg.claimBatch >= 1 && env.cfg.maxDelivery >= 1
    requires Identity(stored) == Some(key) && !ScoringRaises(stored, env)
    ensures Feasible(s, [Claim(0, [key])] + ONE_JOB, env)
    ensures EndsTorn(After(s, [Claim(0, [key])] + ONE_JOB, env), key, tracked, stored)
    ensures OrderlyRun(s, [Claim(0, [key])] + ONE_JOB, env)
  {
    assert forall i :: 0 <= i < 5 ==> !([Claim(0, [key])] + ONE_JOB)[i].IngestEnqueue?
                                      && !([Claim(0, [key])] + ONE_JOB)[i].IngestStop?;
    assert |[Claim(0, [key])] + ONE_JOB| == 5;
    assert ONE_JOB == [Begin(0), ReadResult(0)] + [ReadBlob(0), Close(0)];
    hide *;
    TornIsClaimed(s, key, tracked, stored, env);
    OneStep(s, Claim(0, [key]), env);
    var t := Apply(s, Claim(0, [key]), env);
    TornIsFetched(t, key, tracked, stored, env);
    TornIsCommitted(After(t, [Begin(0), ReadResult(0)], env), key, tracked, stored, env);
    RunsCompose(t, [Begin(0), ReadResult(0)], [ReadBlob(0), Close(0)], env);
    RunsCompose(s, [Claim(0, [key])], ONE_JOB, env);
    WorkIsOrderly(s, [Claim(0, [key])] + ONE_JOB, env);
  }

  /** Two ingesters, neither stopped half-way and neither enqueuing over work in hand: one
      stores the first document, the other stores and enqueues the second, and then the first
      enqueues. */
  lemma TwoIngestersTear(doc: Json, other: Json, key: Key, env: Env) returns (steps: seq<Step>)
    requires Identity(doc) == Some(key) == Identity(other) && doc != other
    requires env.cfg.claimBatch >= 1 && env.cfg.maxDelivery >= 1 && !ScoringRaises(other, env)
    ensures Feasible(Init(1, 2, 0), steps, env) && OrderlyRun(Init(1, 2, 0), steps, env)
    ensures EndsTorn(After(Init(1, 2, 0), steps, env), key, doc, other)
  {
    var start := Init(1, 2, 0);
    var first := [IngestBlob(0, doc), IngestBlob(1, other), IngestEnqueue(1), IngestEnqueue(0)];
    CrossedEnqueues(doc, other, key, env);
    hide *;
    TornToTheEnd(After(start, first, env), key, doc, other, env);
    RunsCompose(start, first, [Claim(0, [key])] + ONE_JOB, env);
    OrderlyRunsCompose(start, first, [Claim(0, [key])] + ONE_JOB, env);
    steps := first + ([Claim(0, [key])] + ONE_JOB);
  }

  lemma CrossedEnqueues(doc: Json, other: Json, key: Key, env: Env)
    requires Identity(doc) == Some(key) == Identity(other) && doc != other
    ensures var first := [IngestBlob(0, doc), IngestBlob(1, other), IngestEnqueue(1), IngestEnqueue(0)];
            && Feasible(Init(1, 2, 0), first, env) && OrderlyRun(Init(1, 2, 0), first, env)
            && Torn(After(Init(1, 2, 0), first, env), key, doc, other)
  {
    hide Identity;
    hide Feasible;
    hide After;
    hide OrderlyRun;
    var s0 := Init(1, 2, 0);
    var s2 := BothStored(s0, doc, other, key, env);
    var s4 := BothEnqueued(s2, doc, other, key, env);
    Two(s0, IngestBlob(0, doc), IngestBlob(1, other), env);
    Two(s2, IngestEnqueue(1), IngestEnqueue(0), env);
    var first, second := [IngestBlob(0, doc), IngestBlob(1, other)], [IngestEnqueue(1), IngestEnqueue(0)];
    TwoOrderly(s0, first[0], first[1], env);
    TwoOrderly(s2, second[0], second[1], env);
    RunsCompose(s0, first, second, env);
    OrderlyRunsCompose(s0, first, second, env);
    assert first + second == [IngestBlob(0, doc), IngestBlob(1, other), IngestEnqueue(1), IngestEnqueue(0)];
  }

  lemma BothStored(s: State, doc: Json, other: Json, key: Key, env: Env) returns (t: State)
    requires s == Init(1, 2, 0) && Identity(doc) == Some(key) == Identity(other) && doc != other
    ensures Enabled(s, IngestBlob(0, doc), env) && Orderly(s, IngestBlob(0, doc))
    ensures var s1 := Apply(s, IngestBlob(0, doc), env);
            && Enabled(s1, IngestBlob(1, other), env) && Orderly(s1, IngestBlob(1, other))
            && t == Apply(s1, IngestBlob(1, other), env)
    ensures t == s.(blobs := map[key := BlobOf(other)], ingesters := [Stored(doc), Stored(other)])
  {
    hide Identity;
    var s1 := Apply(s, IngestBlob(0, doc), env);
    StoreStep(s, IngestBlob(0, doc), env);
    StoreStep(s1, IngestBlob(1, other), env);
    t := Apply(s1, IngestBlob(1, other), env);
    assert t.ingesters == [Stored(doc), Stored(other)];
  }

  lemma BothEnqueued(s: State, doc: Json, other: Json, key: Key, env: Env) returns (t: State)
    requires Identity(doc) == Some(key) == Identity(other) && doc != other
    requires s == Init(1, 2, 0).(blobs := map[key := BlobOf(other)], ingesters := [Stored(doc), Stored(other)])
    ensures Enabled(s, IngestEnqueue(1), env) && Orderly(s, IngestEnqueue(1))
    ensures var s1 := Apply(s, IngestEnqueue(1), env);
            && Enabled(s1, IngestEnqueue(0), env) && Orderly(s1, IngestEnqueue(0))
            && t == Apply(s1, IngestEnqueue(0), env)
    ensures Torn(t, key, doc, other)
  {
    hide Identity;
    var s1 := Apply(s, IngestEnqueue(1), env);
    EnqueueStep(s, IngestEnqueue(1), env);
    EnqueueStep(s1, IngestEnqueue(0), env);
    t := Apply(s1, IngestEnqueue(0), env);
  }

  lemma TwoOrderly(s: State, first: Step, second: Step, env: Env)
    requires Enabled(s, first, env) && Enabled(Apply(s, first, env), second, env)
    requires Orderly(s, first) && Orderly(Apply(s, first, env), second)
    ensures Feasible(s, [first, second], env) && OrderlyRun(s, [first, second], env)
  {
    hide Apply;
    hide Enabled;
    hide Orderly;
    Two(s, first, second, env);
    var t := Apply(s, first, env);
    var u := Apply(t, second, env);
    assert [first, second][1..] == [second] && [second][1..] == [];
    assert OrderlyRun(u, [], env);
    assert OrderlyRun(t, [second], env);
  }

  /** One ingester, orderly but for one thing: it is stopped after storing the second document,
      and never enqueues it. */
  lemma StoppedIngesterTears(doc: Json, other: Json, key: Key, env: Env) returns (first: seq<Step>, rest: seq<Step>)
    requires Identity(doc) == Some(key) == Identity(other) && doc != other
    requires env.cfg.claimBatch >= 1 && env.cfg.maxDelivery >= 1 && !ScoringRaises(other, env)
    ensures Feasible(Init(1, 1, 0), first, env) && OrderlyRun(Init(1, 1, 0), first, env)
    ensures Enabled(After(Init(1, 1, 0), first, env), IngestStop(0), env)
    ensures var stopped := Apply(After(Init(1, 1, 0), first, env), IngestStop(0), env);
            && Feasible(stopped, rest, env) && OrderlyRun(stopped, rest, env)
            && EndsTorn(After(stopped, rest, env), key, doc, other)
  {
    first := [IngestBlob(0, doc), IngestEnqueue(0), IngestBlob(0, other)];
    StoppedHalfWay(doc, other, key, env);
    hide *;
    rest := [Claim(0, [key])] + ONE_JOB;
    TornToTheEnd(Apply(After(Init(1, 1, 0), first, env), IngestStop(0), env), key, doc, other, env);
  }

  lemma StoppedHalfWay(doc: Json, other: Json, key: Key, env: Env)
    requires Identity(doc) == Some(key) == Identity(other) && doc != other
    ensures var first := [IngestBlob(0, doc), IngestEnqueue(0), IngestBlob(0, other)];
            && Feasible(Init(1, 1, 0), first, env) && OrderlyRun(Init(1, 1, 0), first, env)
            && Enabled(After(Init(1, 1, 0), first, env), IngestStop(0), env)
            && Torn(Apply(After(Init(1, 1, 0), first, env), IngestStop(0), env), key, doc, other)
  {
    hide Identity;
    hide TakeClaim;
    hide Score;
    hide Commit;
    var first := [IngestBlob(0, doc), IngestEnqueue(0), IngestBlob(0, other)];
    var s0 := Init(1, 1, 0);
    var s1 := Apply(s0, first[0], env);
    var s2 := Apply(s1, first[1], env);
    var s3 := Apply(s2, first[2], env);
    assert Enabled(s3, IngestStop(0), env) && Torn(Apply(s3, IngestStop(0), env), key, doc, other);
    assert Orderly(s0, first[0]) && Orderly(s1, first[1]) && Orderly(s2, first[2]);
    hide Apply;
    hide Enabled;
    hide Orderly;
    hide Torn;
    assert first[1..] == [first[1], first[2]] && first[1..][1..] == [first[2]] && first[1..][1..][1..] == [];
    assert Feasible(s3, [], env) && OrderlyRun(s3, [], env);
    assert Feasible(s2, [first[2]], env) && OrderlyRun(s2, [first[2]], env) && After(s2, [first[2]], env) == s3;
    assert Feasible(s1, first[1..], env) && OrderlyRun(s1, first[1..], env) && After(s1, first[1..], env) == s3;
  }
}
