/** What every run keeps: terminal jobs have results, results are never lost, and every
    result is the honest outcome of the document its own hash names. */
module Durability {
  import opened Prelude
  import opened Json
  import opened Config
  import opened Metrics
  import opened Schema
  import opened Result
  import opened Tables
  import opened Protocol

  /** A row written because a claim was delivered once too often. */
  predicate IsPoison(row: ResultRow, env: Env) {
    && RowKey(row).Some?
    && row.body.error.Some? && row.body.error.value.detail.DeliveryCount?
    && row.body.error.value.detail.count > env.cfg.maxDelivery
    && row == RejectedRow(RowKey(row).value, row.hash.value, env.cfg, row.provenance.scoredAt,
                          "max_delivery_exceeded", row.body.error.value.detail)
  }

  /** A row that scoring the document named by its hash produces, at the time it says. */
  predicate IsScoring(row: ResultRow, env: Env) {
    && row.hash.Some? && !ScoringRaises(row.hash.value.doc, env)
    && row == ScoreConversation(row.hash.value.doc, env, row.provenance.scoredAt)
  }

  predicate Honest(row: ResultRow, env: Env) {
    RowKey(row).Some? && (IsScoring(row, env) || IsPoison(row, env))
  }

  ghost predicate BlobsKeyedByIdentity(s: State) {
    forall k :: k in s.blobs ==>
      Identity(s.blobs[k].raw) == Some(k) && s.blobs[k].hash == Sha256(s.blobs[k].raw)
  }

  ghost predicate JobsHaveBlobs(s: State) {
    && (forall k :: k in s.jobs ==> k in s.blobs)
    && (forall i :: 0 <= i < |s.ingesters| && s.ingesters[i].Stored? ==>
          Identity(s.ingesters[i].doc).Some? && Identity(s.ingesters[i].doc).value in s.blobs)
  }

  ghost predicate WorkerOk(s: State, w: WorkerState, env: Env) {
    && (forall h :: h in w.todo ==> h.job.key in s.jobs)
    && (w.pc != Ready ==> w.todo != [])
    && (w.pc.Marking? ==> w.todo[0].job.key in s.results)
    && (w.pc.Closing? ==>
          && RowKey(w.pc.row) == Some(w.todo[0].job.key)
          && Honest(w.pc.row, env)
          && (w.pc.status == Done || w.pc.status == Dead))
  }

  ghost predicate ResultsHonest(s: State, env: Env) {
    forall k :: k in s.results ==> RowKey(s.results[k]) == Some(k) && Honest(s.results[k], env)
  }

  ghost predicate TerminalHasResult(s: State) {
    forall k :: k in s.jobs && Terminal(s.jobs[k]) ==> k in s.results
  }

  ghost predicate Durable(s: State, env: Env) {
    && BlobsKeyedByIdentity(s)
    && JobsHaveBlobs(s)
    && (forall i :: 0 <= i < |s.workers| ==> WorkerOk(s, s.workers[i], env))
    && ResultsHonest(s, env)
    && TerminalHasResult(s)
  }

  lemma PoisonRowIsHonest(job: ClaimedJob, env: Env, now: int)
    requires job.deliveryCount > env.cfg.maxDelivery
    ensures IsPoison(PoisonRow(job, env.cfg, now), env)
    ensures Honest(PoisonRow(job, env.cfg, now), env)
    ensures RowKey(PoisonRow(job, env.cfg, now)) == Some(job.key)
  {
  }

  lemma ScoredRowIsHonest(raw: Json, env: Env, now: int)
    requires Identity(raw).Some?
    ensures !ScoringRaises(raw, env) ==> Honest(ScoreConversation(raw, env, now), env)
    ensures RowKey(ScoreConversation(raw, env, now)) == Identity(raw)
  {
    hide ScoreConversation;
    hide ScoringRaises;
    ScoredRowFacts(raw, env, now);
  }

  /** Tables grow: no step drops a blob, a job or a result. */
  lemma TablesGrow(s: State, step: Step, env: Env)
    requires Enabled(s, step, env)
    ensures var t := Apply(s, step, env);
            s.blobs.Keys <= t.blobs.Keys && s.jobs.Keys <= t.jobs.Keys && s.results.Keys <= t.results.Keys
  {
    hide ScoreConversation;
    hide ScoringRaises;
    hide RejectedRow;
    hide Identity;
    hide LogClaims;
    hide Handed;
    hide Feasible;
    hide AlreadyScored;
    hide Claimable;
    if step.Begin? || step.ReadResult? || step.ReadBlob? {
      LocalStep(s, step, env);
    } else if step.Close? {
      CloseStep(s, step, env);
    }
  }

  lemma DurableIngestBlob(s: State, step: Step, env: Env)
    requires step.IngestBlob?
    requires Durable(s, env) && Enabled(s, step, env)
    ensures Durable(Apply(s, step, env), env)
  {
    StoreStep(s, step, env);
    hide Apply;
    hide Enabled;
    hide Honest;
    hide Identity;
    DurableElsewhere(s, StoreBlob(s, step.i, step.doc), env);
  }

  lemma DurableIngestEnqueue(s: State, step: Step, env: Env)
    requires step.IngestEnqueue?
    requires Durable(s, env) && Enabled(s, step, env)
    ensures Durable(Apply(s, step, env), env)
  {
    EnqueueStep(s, step, env);
    hide Apply;
    hide Enabled;
    hide Honest;
    hide Identity;
    DurableElsewhere(s, EnqueueStored(s, step.i), env);
  }

  /** Neither workers nor results move: what is left to see is that blobs are keyed right,
      that every job has one, and that no job became finished. */
  lemma DurableElsewhere(s: State, t: State, env: Env)
    requires Durable(s, env) && t.workers == s.workers && t.results == s.results
    requires s.jobs.Keys <= t.jobs.Keys && BlobsKeyedByIdentity(t) && JobsHaveBlobs(t)
    requires forall k :: k in t.jobs && Terminal(t.jobs[k]) ==> k in s.jobs && Terminal(s.jobs[k])
    ensures Durable(t, env)
  {
    hide WorkerOk;
    hide Honest;
    hide BlobsKeyedByIdentity;
    hide JobsHaveBlobs;
    forall i | 0 <= i < |t.workers| ensures WorkerOk(t, t.workers[i], env) {
      WorkerOkGrows(s, t, s.workers[i], env);
    }
  }

  lemma DurableIdle(s: State, step: Step, env: Env)
    requires step.IngestStop? || step.Crash? || step.Tick?
    requires Durable(s, env) && Enabled(s, step, env)
    ensures Durable(Apply(s, step, env), env)
  {
    hide Honest;
    hide StoreBlob;
    hide EnqueueStored;
    hide TakeClaim;
    hide Score;
    hide Commit;
    TablesGrow(s, step, env);
  }

  lemma ClaimedRowsKept(s: State, keys: set<Key>, w: nat)
    ensures var jobs := ClaimRows(s.jobs, keys, w, s.clock);
            jobs.Keys == s.jobs.Keys
            && forall k :: k in jobs && Terminal(jobs[k]) ==> Terminal(s.jobs[k])
  {
  }

  lemma HandedKeys(s: State, keys: seq<Key>)
    requires forall k :: k in keys ==> k in s.jobs
    ensures forall h :: h in Handed(s, keys) ==> h.job.key in keys
  {
    forall h | h in Handed(s, keys) ensures h.job.key in keys {
      var i :| 0 <= i < |keys| && Handed(s, keys)[i] == h;
    }
  }

  /** One worker moved, and the tables are in order: the other workers lose nothing. */
  lemma DurableMove(s: State, t: State, w: nat, env: Env)
    requires Durable(s, env) && w < |s.workers| == |t.workers| && t.workers == s.workers[w := t.workers[w]]
    requires s.jobs.Keys <= t.jobs.Keys && s.results.Keys <= t.results.Keys
    requires BlobsKeyedByIdentity(t) && JobsHaveBlobs(t) && ResultsHonest(t, env) && TerminalHasResult(t)
    requires WorkerOk(t, t.workers[w], env)
    ensures Durable(t, env)
  {
    hide WorkerOk;
    hide BlobsKeyedByIdentity;
    hide JobsHaveBlobs;
    hide ResultsHonest;
    hide TerminalHasResult;
    forall i | 0 <= i < |t.workers| ensures WorkerOk(t, t.workers[i], env) {
      if i != w {
        WorkerOkGrows(s, t, s.workers[i], env);
      }
    }
  }

  lemma DurableClaim(s: State, step: Step, env: Env)
    requires step.Claim? && Durable(s, env) && Enabled(s, step, env)
    ensures Durable(Apply(s, step, env), env)
  {
    ClaimStep(s, step, env);
    hide Apply;
    hide Enabled;
    hide Identity;
    hide Honest;
    hide LogClaims;
    hide ClaimRows;
    hide Handed;
    var t, w := TakeClaim(s, step.w, step.keys), step.w;
    ClaimedRowsKept(s, Elements(step.keys), w);
    HandedKeys(s, step.keys);
    assert BlobsKeyedByIdentity(t) && JobsHaveBlobs(t) && ResultsHonest(t, env) && TerminalHasResult(t);
    assert WorkerOk(t, t.workers[w], env);
    hide *;
    DurableMove(s, t, w, env);
  }

  /** A step that only moves one worker along leaves the tables, and needs only that
      worker's new position to be in order. */
  lemma DurableLocal(s: State, t: State, w: nat, pc: Pc, env: Env)
    requires Durable(s, env) && Busy(s, w)
    requires t.blobs == s.blobs && t.jobs == s.jobs && t.results == s.results && t.ingesters == s.ingesters
    requires t.workers == s.workers[w := s.workers[w].(pc := pc)]
    requires WorkerOk(s, s.workers[w].(pc := pc), env)
    ensures Durable(t, env)
  {
    hide Honest;
    hide Identity;
    WorkerOkGrows(s, t, s.workers[w].(pc := pc), env);
    hide WorkerOk;
    DurableMove(s, t, w, env);
  }

  lemma WorkerOkGrows(s: State, t: State, w: WorkerState, env: Env)
    requires WorkerOk(s, w, env) && s.jobs.Keys <= t.jobs.Keys && s.results.Keys <= t.results.Keys
    ensures WorkerOk(t, w, env)
  {
    hide Honest;
  }

  lemma DurableBegin(s: State, step: Step, env: Env)
    requires step.Begin? && Durable(s, env) && Enabled(s, step, env)
    ensures Durable(Apply(s, step, env), env)
  {
    hide RejectedRow;
    hide Honest;
    var t, w := Apply(s, step, env), step.w;
    if Head(s, w).job.deliveryCount > env.cfg.maxDelivery {
      PoisonRowIsHonest(Head(s, w).job, env, s.clock);
    }
    DurableLocal(s, t, w, t.workers[w].pc, env);
  }

  lemma DurableReadResult(s: State, step: Step, env: Env)
    requires step.ReadResult? && Durable(s, env) && Enabled(s, step, env)
    ensures Durable(Apply(s, step, env), env)
  {
    hide Honest;
    var t, w := Apply(s, step, env), step.w;
    DurableLocal(s, t, w, t.workers[w].pc, env);
  }

  lemma DurableReadBlob(s: State, step: Step, env: Env)
    requires step.ReadBlob? && Durable(s, env) && Enabled(s, step, env)
    ensures Durable(Apply(s, step, env), env)
  {
    ReadBlobStep(s, step, env);
    hide Apply;
    hide Enabled;
    hide ScoreConversation;
    hide ScoringRaises;
    hide RejectedRow;
    hide Honest;
    hide RowKey;
    hide ResultsHonest;
    var w := step.w;
    var t := Score(s, w, s.workers[w].pc.now, env);
    assert Head(s, w) in s.workers[w].todo;
    ScoredRowIsHonest(s.blobs[Head(s, w).job.key].raw, env, s.workers[w].pc.now);
    DurableLocal(s, t, w, t.workers[w].pc, env);
  }

  /** A step that finishes one worker's job: tables first, then the workers. */
  lemma DurableNext(s: State, t: State, w: nat, env: Env)
    requires Durable(s, env) && Busy(s, w)
    requires t.blobs == s.blobs && t.ingesters == s.ingesters && t.workers == s.workers[w := WorkerState(s.workers[w].todo[1..], Ready)]
    requires t.jobs.Keys == s.jobs.Keys && s.results.Keys <= t.results.Keys
    requires ResultsHonest(t, env) && TerminalHasResult(t)
    ensures Durable(t, env)
  {
    hide Honest;
    hide Identity;
    hide ResultsHonest;
    hide TerminalHasResult;
    assert WorkerOk(s, s.workers[w], env);
    assert forall h :: h in t.workers[w].todo ==> h in s.workers[w].todo;
    assert WorkerOk(t, t.workers[w], env);
    hide WorkerOk;
    DurableMove(s, t, w, env);
  }

  lemma DurableClose(s: State, step: Step, env: Env)
    requires step.Close? && Durable(s, env) && Enabled(s, step, env)
    ensures Durable(Apply(s, step, env), env)
  {
    hide Honest;
    hide Durable;
    var t, w := Apply(s, step, env), step.w;
    ClosingFacts(s, w, env);
    CloseTables(s, t, s.workers[w].pc.row, s.workers[w].pc.status, env);
    DurableNext(s, t, w, env);
  }

  lemma ClosingFacts(s: State, w: nat, env: Env)
    requires Durable(s, env) && Busy(s, w) && s.workers[w].pc.Closing?
    ensures var pc := s.workers[w].pc;
            && RowKey(pc.row) == Some(Head(s, w).job.key)
            && Honest(pc.row, env)
            && (pc.status == Done || pc.status == Dead)
  {
    hide Honest;
    assert WorkerOk(s, s.workers[w], env);
  }

  /** The transaction that closes a job keeps the promise about terminal jobs. */
  lemma CloseTables(s: State, t: State, row: ResultRow, status: JobStatus, env: Env)
    requires Durable(s, env) && RowKey(row).Some? && Honest(row, env)
    requires t.results == s.results[RowKey(row).value := row]
    requires t.jobs == SetStatus(s.jobs, RowKey(row).value, status)
    ensures ResultsHonest(t, env) && TerminalHasResult(t)
    ensures t.jobs.Keys == s.jobs.Keys && s.results.Keys <= t.results.Keys
  {
    hide Honest;
  }

  lemma DurableMark(s: State, step: Step, env: Env)
    requires step.Mark? && Durable(s, env) && Enabled(s, step, env)
    ensures Durable(Apply(s, step, env), env)
  {
    MarkStep(s, step, env);
    var t, w := Apply(s, step, env), step.w;
    assert Busy(s, w) && s.workers[w].pc.Marking?;
    hide Apply;
    hide Enabled;
    hide Honest;
    assert WorkerOk(s, s.workers[w], env);
    hide WorkerOk;
    assert ResultsHonest(t, env) && TerminalHasResult(t);
    hide ResultsHonest;
    hide TerminalHasResult;
    DurableNext(s, t, w, env);
  }

  lemma DurableStep(s: State, step: Step, env: Env)
    requires Durable(s, env) && Enabled(s, step, env)
    ensures Durable(Apply(s, step, env), env)
  {
    hide *;
    match step
    case IngestBlob(_, _) => DurableIngestBlob(s, step, env);
    case IngestEnqueue(_) => DurableIngestEnqueue(s, step, env);
    case Claim(_, _) => DurableClaim(s, step, env);
    case Begin(_) => DurableBegin(s, step, env);
    case ReadResult(_) => DurableReadResult(s, step, env);
    case ReadBlob(_) => DurableReadBlob(s, step, env);
    case Close(_) => DurableClose(s, step, env);
    case Mark(_) => DurableMark(s, step, env);
    case _ => DurableIdle(s, step, env);
  }

  lemma {:induction false} DurableRun(s: State, steps: seq<Step>, env: Env)
    requires Durable(s, env) && Feasible(s, steps, env)
    ensures Durable(After(s, steps, env), env)
    decreases |steps|
  {
    hide Durable;
    hide Apply;
    hide Enabled;
    if steps != [] {
      DurableStep(s, steps[0], env);
      DurableRun(Apply(s, steps[0], env), steps[1..], env);
    }
  }

  /** In every state any run reaches: a done or dead job has a results row for its own
      key; every row is the scoring of the document its hash names, but for `scored_at`,
      or a `max_delivery_exceeded` row; and no row says the blob was missing. */
  lemma OutcomesAreDurable(workers: nat, ingesters: nat, clock: int, steps: seq<Step>, env: Env)
    requires Feasible(Init(workers, ingesters, clock), steps, env)
    ensures var s := After(Init(workers, ingesters, clock), steps, env);
            && TerminalHasResult(s)
            && ResultsHonest(s, env)
            && (forall k :: k in s.results ==> !BlobMissing(s.results[k]))
  {
    var s := After(Init(workers, ingesters, clock), steps, env);
    DurableRun(Init(workers, ingesters, clock), steps, env);
    forall k | k in s.results ensures !BlobMissing(s.results[k]) {
      if IsScoring(s.results[k], env) {
        ScoringNeverMissesBlob(s.results[k].hash.value.doc, env);
      }
    }
  }

  predicate BlobMissing(row: ResultRow) {
    row.body.error.Some? && row.body.error.value.reason == "blob_missing"
  }

  lemma ScoringNeverMissesBlob(raw: Json, env: Env)
    ensures ScoreBody(raw, env).error.Some? ==> ScoreBody(raw, env).error.value.reason != "blob_missing"
  {
    hide OverallSentiment;
    hide SentimentTrajectory;
    hide KeptTurns;
    hide DroppedTurns;
    hide PerTurn;
    hide ScoreByIndex;
  }

  // ---- Terminal jobs -----------------------------------------------------------

  /** The step enqueues, for this key, content the job does not track. */
  predicate EnqueuesNews(s: State, step: Step, key: Key) {
    && step.IngestEnqueue? && step.i < |s.ingesters| && s.ingesters[step.i].Stored?
    && Identity(s.ingesters[step.i].doc) == Some(key)
    && IsNews(s.jobs, key, Sha256(s.ingesters[step.i].doc))
  }

  /** A finished job is reopened by changed content and by nothing else. */
  lemma TerminalIsStable(s: State, step: Step, env: Env, key: Key)
    requires Durable(s, env) && Enabled(s, step, env)
    requires key in s.jobs && Terminal(s.jobs[key])
    ensures key in Apply(s, step, env).jobs
    ensures Terminal(Apply(s, step, env).jobs[key]) <==> !EnqueuesNews(s, step, key)
  {
    hide ScoreConversation;
    hide ScoringRaises;
    hide RejectedRow;
    hide Honest;
    hide LogClaims;
    hide Durable;
    if step.Close? {
      ClosingFacts(s, step.w, env);
    }
  }
}
