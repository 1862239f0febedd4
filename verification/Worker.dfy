/** One worker on its own: processing one claimed job, and draining the queue. */
module Worker {
  import opened Prelude
  import opened Json
  import opened Config
  import opened Schema
  import opened Result
  import opened Tables
  import opened Store

  /** What `process_one` decides to do with a job: commit a row, mark the job done without
      one, or, when the scorer fails, let the exception through. */
  datatype Verdict = Write(row: ResultRow, status: JobStatus) | Skip | Fail

  function Decide(job: ClaimedJob, blobs: map<Key, Blob>, results: map<Key, ResultRow>, env: Env, now: int): Verdict {
    if job.deliveryCount > env.cfg.maxDelivery then Write(PoisonRow(job, env.cfg, now), Dead)
    else if AlreadyScored(results, job) then Skip
    else if job.key !in blobs then Write(BlobMissingRow(job, env.cfg, now), Dead)
    else if ScoringRaises(blobs[job.key].raw, env) then Fail
    else
      var row := ScoreConversation(blobs[job.key].raw, env, now);
      Write(row, StatusFor(row))
  }

  /** What becomes of the jobs and the results. A row that cannot be stored changes nothing. */
  function JobsAfter(jobs: map<Key, Job>, job: ClaimedJob, v: Verdict): map<Key, Job> {
    match v
    case Fail => jobs
    case Skip => SetStatus(jobs, job.key, Done)
    case Write(row, status) => if RowKey(row).Some? then SetStatus(jobs, RowKey(row).value, status) else jobs
  }

  function ResultsAfter(results: map<Key, ResultRow>, v: Verdict): map<Key, ResultRow> {
    if v.Write? && RowKey(v.row).Some? then results[RowKey(v.row).value := v.row] else results
  }

  datatype Outcome = JobDone | JobDead | SkippedDuplicate | Raised

  function OutcomeOf(v: Verdict): Outcome {
    match v
    case Fail => Raised
    case Skip => SkippedDuplicate
    case Write(row, status) => if RowKey(row).None? then Raised else if status == Dead then JobDead else JobDone
  }

  /** Blobs are stored under the identity they carry. */
  ghost predicate Routable(blobs: map<Key, Blob>) {
    forall k :: k in blobs ==> Identity(blobs[k].raw) == Some(k)
  }

  /** What the outcome tells, read off the tables: nothing changed if it raised; otherwise it
      is dead exactly when the job is, skipped exactly when a result for that content was
      there within the limit, and done exactly when a score that is no rejection was written. */
  predicate OutcomeTells(outcome: Outcome, job: ClaimedJob, blobs: map<Key, Blob>, env: Env, now: int,
                         jobs: map<Key, Job>, results: map<Key, ResultRow>,
                         jobsAfter: map<Key, Job>, resultsAfter: map<Key, ResultRow>)
  {
    var within := job.deliveryCount <= env.cfg.maxDelivery;
    var known := job.key in results && results[job.key].hash == Some(job.hash);
    && (outcome == Raised <==>
          within && !known && job.key in blobs && ScoringRaises(blobs[job.key].raw, env))
    && (outcome == Raised ==> jobsAfter == jobs && resultsAfter == results)
    && (outcome != Raised && job.key in jobs ==>
          && job.key in jobsAfter
          && (outcome == JobDead <==> jobsAfter[job.key].status == Dead)
          && (outcome != JobDead <==> jobsAfter[job.key].status == Done))
    && (outcome == SkippedDuplicate <==> within && known)
    && (outcome == SkippedDuplicate ==> resultsAfter == results)
    && (outcome == JobDone <==>
          && within && !known && job.key in blobs && !ScoringRaises(blobs[job.key].raw, env)
          && ScoreBody(blobs[job.key].raw, env).status != Rejected)
    && (outcome == JobDone ==>
          job.key in blobs && resultsAfter == results[job.key := ScoreConversation(blobs[job.key].raw, env, now)])
    && (outcome == JobDead ==>
          && job.key in resultsAfter && resultsAfter == results[job.key := resultsAfter[job.key]]
          && var row := resultsAfter[job.key];
          && row.body.status == Rejected && row.provenance.scoredAt == now
          && (!within ==>
                row.hash == Some(job.hash)
                && row.body.error == Some(RowError("max_delivery_exceeded", DeliveryCount(job.deliveryCount))))
          && (within && job.key !in blobs ==>
                row.hash == Some(job.hash) && row.body.error == Some(RowError("blob_missing", NoDetail)))
          && (within && job.key in blobs ==> row == ScoreConversation(blobs[job.key].raw, env, now)))
  }

  lemma OutcomeIsTelling(job: ClaimedJob, jobs: map<Key, Job>, blobs: map<Key, Blob>,
                         results: map<Key, ResultRow>, env: Env, now: int)
    requires Routable(blobs)
    ensures var v := Decide(job, blobs, results, env, now);
            OutcomeTells(OutcomeOf(v), job, blobs, env, now, jobs, results, JobsAfter(jobs, job, v), ResultsAfter(results, v))
  {
    hide ScoreBody;
    hide ScoringRaises;
    if job.key in blobs {
      ScoredRowFacts(blobs[job.key].raw, env, now);
    }
  }

  method CloseWith(db: Database, row: ResultRow, status: JobStatus) returns (outcome: Outcome)
    requires status == Done || status == Dead
    modifies db`jobs, db`results
    ensures outcome == OutcomeOf(Write(row, status))
    ensures db.results == ResultsAfter(old(db.results), Write(row, status))
    ensures RowKey(row).Some? ==> db.jobs == SetStatus(old(db.jobs), RowKey(row).value, status)
    ensures RowKey(row).None? ==> db.jobs == old(db.jobs)
  {
    var closing := db.CloseJobWithResult(row, status);
    outcome := if closing != Committed then Raised else if status == Dead then JobDead else JobDone;
  }

  method ProcessOne(db: Database, env: Env, job: ClaimedJob) returns (outcome: Outcome)
    modifies db`jobs, db`results, db`clock
    ensures db.clock >= old(db.clock)
    ensures var v := Decide(job, db.blobs, old(db.results), env, db.clock);
            && outcome == OutcomeOf(v)
            && db.jobs == JobsAfter(old(db.jobs), job, v)
            && db.results == ResultsAfter(old(db.results), v)
    ensures Routable(db.blobs) ==>
              OutcomeTells(outcome, job, db.blobs, env, db.clock, old(db.jobs), old(db.results), db.jobs, db.results)
  {
    hide OutcomeTells;
    hide ScoreConversation;
    hide ScoringRaises;
    hide RejectedRow;
    hide RowKey;
    var now := db.Now();
    if Routable(db.blobs) {
      OutcomeIsTelling(job, db.jobs, db.blobs, db.results, env, now);
    }
    if job.deliveryCount > env.cfg.maxDelivery {
      outcome := CloseWith(db, PoisonRow(job, env.cfg, now), Dead);
      return;
    }
    var existing := db.GetResult(job.key);
    if existing.Some? && existing.value.hash == Some(job.hash) {
      db.MarkDone(job.key);
      return SkippedDuplicate;
    }
    var blob := db.GetBlob(job.key);
    if blob.None? {
      outcome := CloseWith(db, BlobMissingRow(job, env.cfg, now), Dead);
      return;
    }
    var row := ScoreDocument(blob.value.raw, env, now);
    if row.None? {
      return Raised;
    }
    outcome := CloseWith(db, row.value, StatusFor(row.value));
  }

  // ---- One verdict ------------------------------------------------------------------------

  /** With blobs under their own identity, every verdict is about the claimed key alone. */
  lemma VerdictIsForItsKey(job: ClaimedJob, blobs: map<Key, Blob>, results: map<Key, ResultRow>, env: Env, now: int)
    requires Routable(blobs)
    ensures var v := Decide(job, blobs, results, env, now);
            && (v.Write? ==> RowKey(v.row) == Some(job.key) && v.row.provenance.scoredAt == now)
            && (v.Write? ==> v.status == StatusFor(v.row))
            && (OutcomeOf(v) == Raised <==> v == Fail)
  {
    hide ScoreConversation;
    hide ScoringRaises;
    if job.key in blobs {
      ScoredRowFacts(blobs[job.key].raw, env, now);
      ScoringIsReproducible(blobs[job.key].raw, env, now, now);
    }
  }

  /** Unless the scorer fails, the job is finished afterwards, and it is dead exactly when its
      result is a rejection, unless it was skipped as a duplicate of a rejection. */
  lemma DeadExactlyWhenRejected(job: ClaimedJob, jobs: map<Key, Job>, blobs: map<Key, Blob>,
                                results: map<Key, ResultRow>, env: Env, now: int)
    requires Routable(blobs) && job.key in jobs
    ensures var v := Decide(job, blobs, results, env, now);
            var jobsAfter, resultsAfter := JobsAfter(jobs, job, v), ResultsAfter(results, v);
            if v == Fail then jobsAfter == jobs && resultsAfter == results else
            && job.key in jobsAfter && Terminal(jobsAfter[job.key]) && job.key in resultsAfter
            && ((jobsAfter[job.key].status == Dead <==> resultsAfter[job.key].body.status == Rejected)
                <==> !(v.Skip? && results[job.key].body.status == Rejected))
  {
    hide ScoreConversation;
    hide ScoringRaises;
    hide RejectedRow;
    hide RowKey;
    VerdictIsForItsKey(job, blobs, results, env, now);
  }

  // ---- Draining -----------------------------------------------------------------------------

  function OpenKeys(jobs: map<Key, Job>): set<Key> {
    set k | k in jobs && !Terminal(jobs[k])
  }

  /** The scorer fails on the job when it is next claimed: it is not poison, not scored
      already, and its document is one the scorer fails on. */
  predicate Fails(key: Key, before: Job, blobs: map<Key, Blob>, results: map<Key, ResultRow>, env: Env) {
    && before.deliveryCount + 1 <= env.cfg.maxDelivery
    && !AlreadyScored(results, ClaimedJobOf(key, before))
    && key in blobs && ScoringRaises(blobs[key].raw, env)
  }

  lemma FailsIsFail(key: Key, before: Job, blobs: map<Key, Blob>, results: map<Key, ResultRow>, env: Env, now: int)
    ensures Fails(key, before, blobs, results, env) <==> Decide(ClaimedJobOf(key, before), blobs, results, env, now) == Fail
  {
    hide ScoreConversation;
    hide ScoringRaises;
    hide RejectedRow;
  }

  /** A job was claimed once more and got the verdict its content called for. */
  predicate Settled(key: Key, before: Job, after: Job, blobs: map<Key, Blob>,
                    results: map<Key, ResultRow>, resultsAfter: map<Key, ResultRow>, env: Env)
  {
    && Terminal(after) && after.hash == before.hash && after.deliveryCount == before.deliveryCount + 1
    && key in resultsAfter
    && match Decide(ClaimedJobOf(key, before), blobs, results, env, resultsAfter[key].provenance.scoredAt)
       case Fail => false
       case Skip => after.status == Done && key in results && resultsAfter[key] == results[key]
       case Write(row, status) => after.status == status && resultsAfter[key] == row
  }

  predicate SameResult(key: Key, results: map<Key, ResultRow>, resultsAfter: map<Key, ResultRow>) {
    if key in results then key in resultsAfter && resultsAfter[key] == results[key] else key !in resultsAfter
  }

  /** The job is as it was, or was open and is settled. */
  predicate UntouchedOrSettled(key: Key, before: Job, after: Job, blobs: map<Key, Blob>,
                               results: map<Key, ResultRow>, resultsAfter: map<Key, ResultRow>, env: Env)
  {
    || (after == before && SameResult(key, results, resultsAfter))
    || (!Terminal(before) && Settled(key, before, after, blobs, results, resultsAfter, env))
  }

  /** The job is claimed and waits in this worker's hands. */
  predicate InHands(key: Key, before: Job, after: Job, results: map<Key, ResultRow>, resultsAfter: map<Key, ResultRow>) {
    && !Terminal(before) && after.status == Claimed
    && after.hash == before.hash && after.deliveryCount == before.deliveryCount + 1
    && SameResult(key, results, resultsAfter)
  }

  /** How far a drain has got, with the `pending` keys in hand. */
  ghost predicate Drained(jobs: map<Key, Job>, results: map<Key, ResultRow>, blobs: map<Key, Blob>, env: Env,
                          jobsNow: map<Key, Job>, resultsNow: map<Key, ResultRow>, pending: set<Key>)
  {
    && jobsNow.Keys == jobs.Keys && pending <= jobs.Keys
    && (forall k :: k in pending ==> InHands(k, jobs[k], jobsNow[k], results, resultsNow))
    && (forall k :: k in jobs && k !in pending ==>
          UntouchedOrSettled(k, jobs[k], jobsNow[k], blobs, results, resultsNow, env))
  }

  lemma ClaimDrains(jobs: map<Key, Job>, results: map<Key, ResultRow>, blobs: map<Key, Blob>, env: Env,
                    before: map<Key, Job>, resultsNow: map<Key, ResultRow>, keys: set<Key>, worker: nat, now: int)
    requires Drained(jobs, results, blobs, env, before, resultsNow, {})
    requires keys <= ClaimableKeys(before, now, env.cfg.leaseSeconds)
    ensures Drained(jobs, results, blobs, env, ClaimRows(before, keys, worker, now), resultsNow, keys)
    ensures OpenKeys(ClaimRows(before, keys, worker, now)) == OpenKeys(before)
    ensures forall k :: k in keys ==> k in jobs && k in before && before[k] == jobs[k]
  {
    hide Settled;
    var after := ClaimRows(before, keys, worker, now);
    assert forall k :: k in keys ==> k in before && !Terminal(before[k]);
    forall k | k in keys
      ensures before[k] == jobs[k] && InHands(k, jobs[k], after[k], results, resultsNow)
    {
      assert UntouchedOrSettled(k, jobs[k], before[k], blobs, results, resultsNow, env);
      SettledIsTerminal(k, jobs[k], before[k], blobs, results, resultsNow, env);
    }
    forall k | k in jobs && k !in keys
      ensures UntouchedOrSettled(k, jobs[k], after[k], blobs, results, resultsNow, env)
    {
      assert UntouchedOrSettled(k, jobs[k], before[k], blobs, results, resultsNow, env);
      assert after[k] == before[k];
    }
  }

  lemma SettledIsTerminal(key: Key, before: Job, after: Job, blobs: map<Key, Blob>,
                          results: map<Key, ResultRow>, resultsAfter: map<Key, ResultRow>, env: Env)
    ensures Settled(key, before, after, blobs, results, resultsAfter, env) ==> Terminal(after)
  {
    hide Decide;
  }

  lemma VerdictDrains(jobs: map<Key, Job>, results: map<Key, ResultRow>, blobs: map<Key, Blob>, env: Env,
                      before: map<Key, Job>, resultsNow: map<Key, ResultRow>, pending: set<Key>, key: Key, now: int)
    requires Routable(blobs) && key in pending
    requires Drained(jobs, results, blobs, env, before, resultsNow, pending)
    ensures var job := ClaimedJobOf(key, jobs[key]);
            var v := Decide(job, blobs, resultsNow, env, now);
            && (OutcomeOf(v) == Raised <==> v == Fail)
            && (v == Fail <==> Fails(key, jobs[key], blobs, results, env))
            && (v == Fail ==> JobsAfter(before, job, v) == before && ResultsAfter(resultsNow, v) == resultsNow)
            && (v != Fail ==>
                  && Drained(jobs, results, blobs, env, JobsAfter(before, job, v), ResultsAfter(resultsNow, v), pending - {key})
                  && OpenKeys(JobsAfter(before, job, v)) == OpenKeys(before) - {key}
                  && key in OpenKeys(before))
  {
    hide Decide;
    hide RowKey;
    var job := ClaimedJobOf(key, jobs[key]);
    var v := Decide(job, blobs, resultsNow, env, now);
    VerdictIsForItsKey(job, blobs, resultsNow, env, now);
    FailsIsFail(key, jobs[key], blobs, resultsNow, env, now);
    assert InHands(key, jobs[key], before[key], results, resultsNow);
    if v != Fail {
      SettlingDrains(jobs, results, blobs, env, before, resultsNow, pending, key, now);
    }
  }

  lemma SettlingDrains(jobs: map<Key, Job>, results: map<Key, ResultRow>, blobs: map<Key, Blob>, env: Env,
                       before: map<Key, Job>, resultsNow: map<Key, ResultRow>, pending: set<Key>, key: Key, now: int)
    requires Routable(blobs) && key in pending
    requires Drained(jobs, results, blobs, env, before, resultsNow, pending)
    requires Decide(ClaimedJobOf(key, jobs[key]), blobs, resultsNow, env, now) != Fail
    ensures var job := ClaimedJobOf(key, jobs[key]);
            var v := Decide(job, blobs, resultsNow, env, now);
            && Drained(jobs, results, blobs, env, JobsAfter(before, job, v), ResultsAfter(resultsNow, v), pending - {key})
            && OpenKeys(JobsAfter(before, job, v)) == OpenKeys(before) - {key}
            && key in OpenKeys(before)
  {
    var job := ClaimedJobOf(key, jobs[key]);
    var v := Decide(job, blobs, resultsNow, env, now);
    VerdictIsForItsKey(job, blobs, resultsNow, env, now);
    assert InHands(key, jobs[key], before[key], results, resultsNow);
    VerdictSettles(key, jobs[key], before, blobs, results, resultsNow, env, now);
    var jobsAfter, resultsAfter := JobsAfter(before, job, v), ResultsAfter(resultsNow, v);
    hide Decide;
    hide RowKey;
    OthersStay(before, resultsNow, job, v);
    hide JobsAfter;
    hide ResultsAfter;
    hide UntouchedOrSettled;
    hide Settled;
    assert UntouchedOrSettled(key, jobs[key], jobsAfter[key], blobs, results, resultsAfter, env) by {
      SettledCounts(key, jobs[key], jobsAfter[key], blobs, results, resultsAfter, env);
    }
    forall k | k in jobs && k !in pending - {key}
      ensures UntouchedOrSettled(k, jobs[k], jobsAfter[k], blobs, results, resultsAfter, env)
    {
      if k != key {
        OtherKeyStays(k, jobs[k], before[k], blobs, results, resultsNow, resultsAfter, env);
      }
    }
  }

  lemma SettledCounts(key: Key, before: Job, after: Job, blobs: map<Key, Blob>, results: map<Key, ResultRow>,
                      resultsAfter: map<Key, ResultRow>, env: Env)
    requires !Terminal(before) && Settled(key, before, after, blobs, results, resultsAfter, env)
    ensures UntouchedOrSettled(key, before, after, blobs, results, resultsAfter, env)
  {
    hide Settled;
  }

  lemma OtherKeyStays(key: Key, before: Job, after: Job, blobs: map<Key, Blob>, results: map<Key, ResultRow>,
                      resultsNow: map<Key, ResultRow>, resultsAfter: map<Key, ResultRow>, env: Env)
    requires UntouchedOrSettled(key, before, after, blobs, results, resultsNow, env)
    requires SameResult(key, resultsNow, resultsAfter)
    ensures UntouchedOrSettled(key, before, after, blobs, results, resultsAfter, env)
  {
    hide Decide;
  }

  /** A verdict about one key touches no other. */
  lemma OthersStay(jobs: map<Key, Job>, results: map<Key, ResultRow>, job: ClaimedJob, v: Verdict)
    requires v.Write? ==> RowKey(v.row) == Some(job.key)
    requires v.Write? ==> v.status == StatusFor(v.row)
    requires job.key in jobs && v != Fail
    ensures var jobsAfter, resultsAfter := JobsAfter(jobs, job, v), ResultsAfter(results, v);
            && jobsAfter.Keys == jobs.Keys
            && (forall k :: k in jobs && k != job.key ==> jobsAfter[k] == jobs[k])
            && (forall k :: k != job.key ==> SameResult(k, results, resultsAfter))
            && Terminal(jobsAfter[job.key])
  {
    hide RowKey;
  }

  lemma VerdictSettles(key: Key, before: Job, jobsNow: map<Key, Job>, blobs: map<Key, Blob>,
                       results: map<Key, ResultRow>, resultsNow: map<Key, ResultRow>, env: Env, now: int)
    requires Routable(blobs) && key in jobsNow && InHands(key, before, jobsNow[key], results, resultsNow)
    requires Decide(ClaimedJobOf(key, before), blobs, resultsNow, env, now) != Fail
    ensures var job := ClaimedJobOf(key, before);
            var v := Decide(job, blobs, resultsNow, env, now);
            var jobsAfter := JobsAfter(jobsNow, job, v);
            key in jobsAfter
            && Settled(key, before, jobsAfter[key], blobs, results, ResultsAfter(resultsNow, v), env)
  {
    hide ScoreConversation;
    hide ScoringRaises;
    hide RejectedRow;
    hide RowKey;
    var job := ClaimedJobOf(key, before);
    VerdictIsForItsKey(job, blobs, resultsNow, env, now);
    var v := Decide(job, blobs, resultsNow, env, now);
    if v.Skip? {
      var at := resultsNow[key].provenance.scoredAt;
      assert Decide(job, blobs, results, env, at) == Skip;
    } else {
      assert Decide(job, blobs, results, env, now) == v;
    }
  }

  lemma NothingDrained(jobs: map<Key, Job>, results: map<Key, ResultRow>, blobs: map<Key, Blob>, env: Env)
    ensures Drained(jobs, results, blobs, env, jobs, results, {})
  {
    hide Decide;
  }

  lemma SelectedAreClaimable(jobs: map<Key, Job>, now: int, lease: int, batch: nat, keys: seq<Key>)
    requires IsSelection(jobs, now, lease, batch, keys)
    ensures Distinct(keys) && |keys| <= batch && Elements(keys) <= ClaimableKeys(jobs, now, lease)
    ensures forall j :: 0 <= j < |keys| ==> keys[j] in Elements(keys)
    ensures Elements(keys[0..]) == Elements(keys) && Elements(keys[|keys|..]) == {}
    ensures |HandOut(jobs, keys)| == |keys|
    ensures forall j :: 0 <= j < |keys| ==> keys[j] in jobs && HandOut(jobs, keys)[j] == ClaimedJobOf(keys[j], jobs[keys[j]])
  {
    assert keys[0..] == keys;
  }

  lemma EmptySelection(jobs: map<Key, Job>, now: int, lease: int, batch: nat, keys: seq<Key>, worker: nat)
    requires IsSelection(jobs, now, lease, batch, keys) && HandOut(jobs, keys) == []
    ensures batch >= 1 ==> ClaimableKeys(jobs, now, lease) == {}
    ensures ClaimRows(jobs, Elements(keys), worker, now) == jobs
  {
  }

  lemma NextInHand(keys: seq<Key>, i: nat)
    requires Distinct(keys) && i < |keys|
    ensures keys[i] in Elements(keys[i..])
    ensures Elements(keys[i..]) - {keys[i]} == Elements(keys[i + 1..])
  {
    assert keys[i..] == [keys[i]] + keys[i + 1..];
  }

  /** If every open job could be claimed at the start, so can every job still open now. */
  lemma OpenStaysClaimable(jobs: map<Key, Job>, results: map<Key, ResultRow>, blobs: map<Key, Blob>, env: Env,
                           jobsNow: map<Key, Job>, resultsNow: map<Key, ResultRow>, start: int, now: int)
    requires Drained(jobs, results, blobs, env, jobsNow, resultsNow, {}) && start <= now
    requires OpenKeys(jobs) == ClaimableKeys(jobs, start, env.cfg.leaseSeconds)
    ensures OpenKeys(jobsNow) <= ClaimableKeys(jobsNow, now, env.cfg.leaseSeconds)
  {
    hide Settled;
    hide SameResult;
    forall k | k in OpenKeys(jobsNow) ensures k in ClaimableKeys(jobsNow, now, env.cfg.leaseSeconds) {
      SettledIsTerminal(k, jobs[k], jobsNow[k], blobs, results, resultsNow, env);
      assert jobsNow[k] == jobs[k];
      assert k in OpenKeys(jobs);
    }
  }

  /** A job that was settled is one the scorer did not fail on. */
  lemma SettledDidNotFail(key: Key, before: Job, after: Job, blobs: map<Key, Blob>,
                          results: map<Key, ResultRow>, resultsAfter: map<Key, ResultRow>, env: Env)
    requires Settled(key, before, after, blobs, results, resultsAfter, env)
    ensures !Fails(key, before, blobs, results, env)
  {
    hide Decide;
    FailsIsFail(key, before, blobs, results, env, resultsAfter[key].provenance.scoredAt);
  }

  lemma AllDrained(jobs: map<Key, Job>, results: map<Key, ResultRow>, blobs: map<Key, Blob>, env: Env,
                   jobsNow: map<Key, Job>, resultsNow: map<Key, ResultRow>)
    requires Drained(jobs, results, blobs, env, jobsNow, resultsNow, {}) && OpenKeys(jobsNow) == {}
    ensures forall k :: k in OpenKeys(jobs) ==> !Fails(k, jobs[k], blobs, results, env)
  {
    hide Settled;
    hide Fails;
    forall k | k in OpenKeys(jobs) ensures !Fails(k, jobs[k], blobs, results, env) {
      assert k !in OpenKeys(jobsNow);
      SettledDidNotFail(k, jobs[k], jobsNow[k], blobs, results, resultsNow, env);
    }
  }

  lemma PendingIsOpen(jobs: map<Key, Job>, results: map<Key, ResultRow>, blobs: map<Key, Blob>, env: Env,
                      jobsNow: map<Key, Job>, resultsNow: map<Key, ResultRow>, pending: set<Key>)
    requires Drained(jobs, results, blobs, env, jobsNow, resultsNow, pending)
    ensures pending <= OpenKeys(jobs)
  {
  }

  /** Whatever the drain changed was claimable, by this worker's lease, and bears its name
      and a time within the drain; and each row keeps its place in the queue. */
  ghost predicate TakenRightly(jobs: map<Key, Job>, jobsNow: map<Key, Job>, worker: nat, lease: int, start: int, now: int) {
    forall k :: k in jobs ==>
      && k in jobsNow
      && (jobsNow[k] == jobs[k] || Taken(jobs[k], jobsNow[k], worker, lease, start, now))
  }

  predicate Taken(before: Job, after: Job, worker: nat, lease: int, start: int, now: int) {
    && Claimable(before, now, lease)
    && after.claimedBy == Some(worker) && after.claimedAt.Some? && start <= after.claimedAt.value <= now
    && after.enqueuedAt == before.enqueuedAt
  }

  lemma NothingTaken(jobs: map<Key, Job>, worker: nat, lease: int, start: int)
    ensures TakenRightly(jobs, jobs, worker, lease, start, start)
  {
  }

  lemma ClaimTakes(jobs: map<Key, Job>, before: map<Key, Job>, keys: set<Key>, worker: nat, lease: int,
                   start: int, asOf: int, now: int)
    requires TakenRightly(jobs, before, worker, lease, start, asOf) && start <= asOf <= now
    requires keys <= ClaimableKeys(before, now, lease)
    requires forall k :: k in keys ==> k in jobs && k in before && before[k] == jobs[k]
    ensures TakenRightly(jobs, ClaimRows(before, keys, worker, now), worker, lease, start, now)
  {
    var after := ClaimRows(before, keys, worker, now);
    forall k | k in jobs
      ensures k in after && (after[k] == jobs[k] || Taken(jobs[k], after[k], worker, lease, start, now))
    {
      assert k in before;
    }
  }

  /** A verdict sets the status of its key's row, which this worker has taken, and no more. */
  lemma VerdictTakes(jobs: map<Key, Job>, before: map<Key, Job>, job: ClaimedJob, v: Verdict, worker: nat, lease: int,
                     start: int, asOf: int, now: int)
    requires TakenRightly(jobs, before, worker, lease, start, asOf) && start <= asOf <= now
    requires v.Write? ==> RowKey(v.row) == Some(job.key)
    requires job.key in jobs && job.key in before && before[job.key] != jobs[job.key]
    ensures TakenRightly(jobs, JobsAfter(before, job, v), worker, lease, start, now)
  {
    hide RowKey;
    var after := JobsAfter(before, job, v);
    forall k | k in jobs
      ensures k in after && (after[k] == jobs[k] || Taken(jobs[k], after[k], worker, lease, start, now))
    {
      assert k in before;
    }
  }

  lemma NothingMore(jobs: map<Key, Job>, jobsNow: map<Key, Job>, worker: nat, lease: int, start: int, asOf: int, now: int)
    requires TakenRightly(jobs, jobsNow, worker, lease, start, asOf) && start <= asOf <= now
    ensures TakenRightly(jobs, jobsNow, worker, lease, start, now)
  {
  }

  lemma {:induction false} NoMoreThan(keys: seq<Key>, i: nat)
    requires i <= |keys|
    ensures |Elements(keys[i..])| <= |keys| - i
    decreases |keys| - i
  {
    if i < |keys| {
      NoMoreThan(keys, i + 1);
      assert keys[i..] == [keys[i]] + keys[i + 1..];
      assert Elements(keys[i..]) == {keys[i]} + Elements(keys[i + 1..]);
    } else {
      assert keys[i..] == [];
    }
  }

  /** A job in hand is not as it was: it counts one delivery more. */
  lemma InHandsIsChanged(jobs: map<Key, Job>, results: map<Key, ResultRow>, blobs: map<Key, Blob>, env: Env,
                         jobsNow: map<Key, Job>, resultsNow: map<Key, ResultRow>, pending: set<Key>, key: Key)
    requires Drained(jobs, results, blobs, env, jobsNow, resultsNow, pending) && key in pending
    ensures key in jobs && key in jobsNow && jobsNow[key] != jobs[key]
    ensures InHands(key, jobs[key], jobsNow[key], results, resultsNow)
  {
    hide UntouchedOrSettled;
  }

  /** The rows the drain has changed. */
  function Touched(jobs: map<Key, Job>, jobsNow: map<Key, Job>): set<Key> {
    set k | k in jobs && k in jobsNow && jobsNow[k] != jobs[k]
  }

  /** The drain began with a claim of a full batch, as far as there were rows for it. */
  ghost predicate TookFullBatch(jobs: map<Key, Job>, jobsNow: map<Key, Job>, batch: int, start: int, lease: int) {
    var claimable := |ClaimableKeys(jobs, start, lease)|;
    |Touched(jobs, jobsNow)| >= if batch <= claimable then batch else claimable
  }

  lemma FirstClaimIsFull(jobs: map<Key, Job>, keys: seq<Key>, worker: nat, batch: nat, lease: int, start: int, now: int)
    requires IsSelection(jobs, now, lease, batch, keys) && start <= now
    ensures TookFullBatch(jobs, ClaimRows(jobs, Elements(keys), worker, now), batch, start, lease)
  {
    var after := ClaimRows(jobs, Elements(keys), worker, now);
    assert Elements(keys) <= Touched(jobs, after) by {
      forall k | k in Elements(keys) ensures k in Touched(jobs, after) {
        assert after[k].deliveryCount == jobs[k].deliveryCount + 1;
      }
    }
    DistinctCardinality(keys);
    SubsetCardinality(Elements(keys), Touched(jobs, after));
    assert ClaimableKeys(jobs, start, lease) <= ClaimableKeys(jobs, now, lease);
    SubsetCardinality(ClaimableKeys(jobs, start, lease), ClaimableKeys(jobs, now, lease));
  }

  /** A row once touched stays so. */
  lemma TouchedGrows(jobs: map<Key, Job>, before: map<Key, Job>, after: map<Key, Job>, batch: int, start: int, lease: int)
    requires TookFullBatch(jobs, before, batch, start, lease) && Touched(jobs, before) <= Touched(jobs, after)
    ensures TookFullBatch(jobs, after, batch, start, lease)
  {
    SubsetCardinality(Touched(jobs, before), Touched(jobs, after));
  }

  lemma ClaimTouchesMore(jobs: map<Key, Job>, before: map<Key, Job>, keys: set<Key>, worker: nat, now: int)
    requires forall k :: k in keys ==> k in jobs && k in before && before[k] == jobs[k]
    ensures Touched(jobs, before) <= Touched(jobs, ClaimRows(before, keys, worker, now))
  {
  }

  lemma VerdictTouchesNoLess(jobs: map<Key, Job>, results: map<Key, ResultRow>, before: map<Key, Job>, key: Key, v: Verdict,
                             resultsNow: map<Key, ResultRow>)
    requires key in jobs && key in before && InHands(key, jobs[key], before[key], results, resultsNow)
    requires v.Write? ==> RowKey(v.row) == Some(key)
    ensures Touched(jobs, before) <= Touched(jobs, JobsAfter(before, ClaimedJobOf(key, jobs[key]), v))
  {
    hide RowKey;
  }

  /** `run(once=True)`: claims and processes batches until a claim comes back empty, or until
      the scorer fails, which ends it with the rest of the batch claimed. Every job it
      finished got the verdict its content called for, exactly once, and the rest of the
      tables is as before; it took no row whose lease had not run out. The count is the number of jobs it finished. If every unfinished
      job could be claimed to begin with, and a batch holds at least one, it finishes every
      job, unless there is one the scorer fails on, and then it fails. */
  method Run(db: Database, env: Env, worker: nat) returns (processed: Option<nat>, ghost pending: set<Key>)
    requires Routable(db.blobs) && env.cfg.claimBatch >= 0
    modifies db`jobs, db`results, db`clock
    ensures db.clock >= old(db.clock)
    ensures Drained(old(db.jobs), old(db.results), db.blobs, env, db.jobs, db.results, pending)
    ensures pending <= OpenKeys(old(db.jobs)) && |pending| <= env.cfg.claimBatch
    ensures TakenRightly(old(db.jobs), db.jobs, worker, env.cfg.leaseSeconds, old(db.clock), db.clock)
    ensures TookFullBatch(old(db.jobs), db.jobs, env.cfg.claimBatch, old(db.clock), env.cfg.leaseSeconds)
    ensures processed.None? ==>
              exists k :: k in pending && Fails(k, old(db.jobs)[k], db.blobs, old(db.results), env)
    ensures processed.Some? ==> pending == {} && processed.value == |OpenKeys(old(db.jobs))| - |OpenKeys(db.jobs)|
    ensures processed.Some? && env.cfg.claimBatch >= 1 ==>
              ClaimableKeys(db.jobs, db.clock, env.cfg.leaseSeconds) == {}
    ensures env.cfg.claimBatch >= 1
            && OpenKeys(old(db.jobs)) == ClaimableKeys(old(db.jobs), old(db.clock), env.cfg.leaseSeconds) ==>
              && (processed.Some? <==>
                  forall k :: k in OpenKeys(old(db.jobs)) ==> !Fails(k, old(db.jobs)[k], db.blobs, old(db.results), env))
              && (processed.Some? ==> OpenKeys(db.jobs) == {} && processed.value == |OpenKeys(old(db.jobs))|)
  {
    hide *;
    ghost var jobs, results, blobs := db.jobs, db.results, db.blobs;
    var count := 0;
    pending := {};
    NothingDrained(jobs, results, blobs, env);
    NothingTaken(jobs, worker, env.cfg.leaseSeconds, db.clock);
    while true
      invariant db.clock >= old(db.clock)
      invariant TakenRightly(jobs, db.jobs, worker, env.cfg.leaseSeconds, old(db.clock), db.clock)
      invariant db.jobs == jobs || TookFullBatch(jobs, db.jobs, env.cfg.claimBatch, old(db.clock), env.cfg.leaseSeconds)
      invariant pending == {} && Drained(jobs, results, blobs, env, db.jobs, db.results, pending)
      invariant count + |OpenKeys(db.jobs)| == |OpenKeys(jobs)|
      decreases |OpenKeys(db.jobs)|
    {
      ghost var before, asOf := db.jobs, db.clock;
      var batch, keys := db.Claim(worker, env.cfg.claimBatch, env.cfg.leaseSeconds);
      if before == jobs {
        FirstClaimIsFull(jobs, keys, worker, env.cfg.claimBatch, env.cfg.leaseSeconds, old(db.clock), db.clock);
      }
      if batch == [] {
        EmptySelection(before, db.clock, env.cfg.leaseSeconds, env.cfg.claimBatch, keys, worker);
        if env.cfg.claimBatch >= 1
           && OpenKeys(jobs) == ClaimableKeys(jobs, old(db.clock), env.cfg.leaseSeconds) {
          OpenStaysClaimable(jobs, results, blobs, env, db.jobs, db.results, old(db.clock), db.clock);
          AllDrained(jobs, results, blobs, env, db.jobs, db.results);
        }
        PendingIsOpen(jobs, results, blobs, env, db.jobs, db.results, pending);
        NothingMore(jobs, db.jobs, worker, env.cfg.leaseSeconds, old(db.clock), asOf, db.clock);
        return Some(count), pending;
      }
      SelectedAreClaimable(before, db.clock, env.cfg.leaseSeconds, env.cfg.claimBatch, keys);
      ClaimDrains(jobs, results, blobs, env, before, db.results, Elements(keys), worker, db.clock);
      ClaimTakes(jobs, before, Elements(keys), worker, env.cfg.leaseSeconds, old(db.clock), asOf, db.clock);
      ClaimTouchesMore(jobs, before, Elements(keys), worker, db.clock);
      if before != jobs {
        TouchedGrows(jobs, before, db.jobs, env.cfg.claimBatch, old(db.clock), env.cfg.leaseSeconds);
      }
      ghost var open := |OpenKeys(db.jobs)|;
      var i := 0;
      while i < |batch|
        invariant 0 <= i <= |batch| == |keys| <= env.cfg.claimBatch
        invariant db.clock >= old(db.clock)
        invariant TakenRightly(jobs, db.jobs, worker, env.cfg.leaseSeconds, old(db.clock), db.clock)
        invariant TookFullBatch(jobs, db.jobs, env.cfg.claimBatch, old(db.clock), env.cfg.leaseSeconds)
        invariant forall j :: 0 <= j < |batch| ==> keys[j] in jobs && batch[j] == ClaimedJobOf(keys[j], jobs[keys[j]])
        invariant Drained(jobs, results, blobs, env, db.jobs, db.results, Elements(keys[i..]))
        invariant |OpenKeys(db.jobs)| == open - i
        invariant count + |OpenKeys(db.jobs)| == |OpenKeys(jobs)|
      {
        NextInHand(keys, i);
        ghost var jobsNow, resultsNow, begun := db.jobs, db.results, db.clock;
        InHandsIsChanged(jobs, results, blobs, env, jobsNow, resultsNow, Elements(keys[i..]), keys[i]);
        var outcome := ProcessOne(db, env, batch[i]);
        VerdictDrains(jobs, results, blobs, env, jobsNow, resultsNow, Elements(keys[i..]), keys[i], db.clock);
        VerdictIsForItsKey(batch[i], blobs, resultsNow, env, db.clock);
        VerdictTakes(jobs, jobsNow, batch[i], Decide(batch[i], blobs, resultsNow, env, db.clock), worker,
                     env.cfg.leaseSeconds, old(db.clock), begun, db.clock);
        VerdictTouchesNoLess(jobs, results, jobsNow, keys[i], Decide(batch[i], blobs, resultsNow, env, db.clock), resultsNow);
        TouchedGrows(jobs, jobsNow, db.jobs, env.cfg.claimBatch, old(db.clock), env.cfg.leaseSeconds);
        if outcome == Raised {
          NoMoreThan(keys, i);
          pending := Elements(keys[i..]);
          PendingIsOpen(jobs, results, blobs, env, db.jobs, db.results, pending);
          assert keys[i] in pending && Fails(keys[i], jobs[keys[i]], blobs, results, env);
          return None, pending;
        }
        count := count + 1;
        i := i + 1;
      }
    }
  }
}
