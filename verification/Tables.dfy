/** The three tables and the statements that change them, as functions from the rows
    before to the rows after. Each is one SQL statement or one transaction. */
module Tables {
  import opened Prelude
  import opened Json
  import opened Config
  import opened Schema
  import opened Result

  datatype Blob = Blob(hash: Digest, raw: Json)

  datatype JobStatus = Queued | Claimed | Done | Dead

  datatype Job = Job(
    hash: Digest,
    status: JobStatus,
    claimedBy: Option<nat>,
    claimedAt: Option<int>,
    deliveryCount: nat,
    enqueuedAt: int)

  /** What a claim hands to the worker. */
  datatype ClaimedJob = ClaimedJob(key: Key, hash: Digest, deliveryCount: nat)

  predicate Terminal(job: Job) {
    job.status == Done || job.status == Dead
  }

  // ---- conversation_blobs ------------------------------------------------------

  function UpsertBlob(blobs: map<Key, Blob>, key: Key, hash: Digest, raw: Json): map<Key, Blob> {
    if key in blobs && blobs[key].hash == hash then blobs else blobs[key := Blob(hash, raw)]
  }

  // ---- jobs --------------------------------------------------------------------

  /** Whether an enqueue inserts or requeues, rather than finding the content tracked. */
  predicate IsNews(jobs: map<Key, Job>, key: Key, hash: Digest) {
    key !in jobs || jobs[key].hash != hash
  }

  function Enqueue(jobs: map<Key, Job>, key: Key, hash: Digest, now: int): map<Key, Job> {
    if IsNews(jobs, key, hash) then jobs[key := Job(hash, Queued, None, None, 0, now)] else jobs
  }

  /** Queued, or claimed longer ago than the lease. */
  predicate Claimable(job: Job, now: int, lease: int) {
    || job.status == Queued
    || (job.status == Claimed && job.claimedAt.Some? && job.claimedAt.value < now - lease)
  }

  function ClaimRow(job: Job, worker: nat, now: int): Job {
    job.(status := Claimed, claimedBy := Some(worker), claimedAt := Some(now), deliveryCount := job.deliveryCount + 1)
  }

  /** The update of one claim: every chosen row is bumped once, no other row changes. */
  function ClaimRows(jobs: map<Key, Job>, keys: set<Key>, worker: nat, now: int): map<Key, Job> {
    map k | k in jobs :: if k in keys then ClaimRow(jobs[k], worker, now) else jobs[k]
  }

  /** What the claim of a row hands out. */
  function ClaimedJobOf(key: Key, job: Job): ClaimedJob {
    ClaimedJob(key, job.hash, job.deliveryCount + 1)
  }

  function SetStatus(jobs: map<Key, Job>, key: Key, status: JobStatus): map<Key, Job> {
    if key in jobs then jobs[key := jobs[key].(status := status)] else jobs
  }

  // ---- results -----------------------------------------------------------------

  /** The key a row is stored under, if its NOT NULL columns are filled. */
  function RowKey(row: ResultRow): Option<Key> {
    if row.tenant.Str? && row.conversation.Str? && row.hash.Some? then
      Some(Key(row.tenant.s, row.conversation.s))
    else
      None
  }

  /** `_rejected_row`: a row for a job that never reached scoring. */
  function RejectedRow(key: Key, hash: Digest, cfg: Config, now: int, reason: string, detail: Detail): ResultRow {
    ResultRow(
      Str(key.tenant),
      Str(key.conversation),
      Some(hash),
      cfg.schemaVersion,
      ProvenanceOf(cfg, now),
      MetricParams(cfg),
      Body(Rejected, None, None, [], [], Some(RowError(reason, detail))))
  }

  function PoisonRow(job: ClaimedJob, cfg: Config, now: int): ResultRow {
    RejectedRow(job.key, job.hash, cfg, now, "max_delivery_exceeded", DeliveryCount(job.deliveryCount))
  }

  function BlobMissingRow(job: ClaimedJob, cfg: Config, now: int): ResultRow {
    RejectedRow(job.key, job.hash, cfg, now, "blob_missing", NoDetail)
  }

  /** A terminal result already exists for exactly this content. */
  predicate AlreadyScored(results: map<Key, ResultRow>, job: ClaimedJob) {
    job.key in results && results[job.key].hash == Some(job.hash)
  }

  function StatusFor(row: ResultRow): JobStatus {
    if row.body.status == Rejected then Dead else Done
  }

  /** Same row, whenever it was scored. */
  predicate SameButForTime(a: ResultRow, b: ResultRow) {
    a == b.(provenance := b.provenance.(scoredAt := a.provenance.scoredAt))
  }

  lemma ScoredRowFacts(raw: Json, env: Env, now: int)
    requires Identity(raw).Some?
    ensures var row := ScoreConversation(raw, env, now);
            && RowKey(row) == Identity(raw)
            && row.hash == Some(Sha256(raw))
            && row == ScoreConversation(row.hash.value.doc, env, row.provenance.scoredAt)
  {
  }

  /** Scoring the same document twice gives the same row but for `scored_at`, which is
      exactly the time passed in. */
  lemma ScoringIsReproducible(raw: Json, env: Env, now: int, later: int)
    ensures SameButForTime(ScoreConversation(raw, env, now), ScoreConversation(raw, env, later))
    ensures ScoreConversation(raw, env, now).provenance.scoredAt == now
  {
  }

  /** A row for a job that never reached scoring is the row scoring gives a document that it
      rejects, down to the parameters it echoes. */
  lemma RejectedRowIsRejectedBranch(raw: Json, env: Env, now: int)
    requires Identity(raw).Some? && ParseConversation(raw).Rejection?
    ensures var parse := ParseConversation(raw);
            ScoreConversation(raw, env, now)
            == RejectedRow(Identity(raw).value, Sha256(raw), env.cfg, now, parse.reason, parse.detail)
  {
  }
}
