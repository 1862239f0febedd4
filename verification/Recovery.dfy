/** After a crash of everyone, from any state of the protocol, `run(once=True)` finishes every
    job. */
module Recovery {
  import opened Prelude
  import opened Json
  import opened Config
  import opened Result
  import opened Tables
  import opened Protocol
  import opened Durability
  import opened Leases
  import opened Scoring
  import opened Refinement
  import opened Convergence
  import opened Store
  import opened Worker

  // ---- Everyone crashes ------------------------------------------------------------------------

  function CrashFirst(n: nat): seq<Step> {
    if n == 0 then [] else CrashFirst(n - 1) + [Crash(n - 1)]
  }

  lemma {:induction false} CrashesAreFeasible(s: State, n: nat, env: Env)
    requires n <= |s.workers|
    ensures Feasible(s, CrashFirst(n), env)
    ensures var t := After(s, CrashFirst(n), env);
            && t == s.(workers := t.workers) && |t.workers| == |s.workers|
            && forall i :: 0 <= i < n ==> t.workers[i] == WorkerState([], Ready)
  {
    if n > 0 {
      CrashesAreFeasible(s, n - 1, env);
      OneMore(s, CrashFirst(n - 1), Crash(n - 1), env);
    }
  }

  /** Every worker crashes, and then time passes. */
  function CrashAndWait(s: State, elapsed: nat): seq<Step> {
    CrashFirst(|s.workers|) + [Tick(elapsed)]
  }

  lemma CrashAndWaitLeadsTo(s: State, elapsed: nat, env: Env)
    ensures Feasible(s, CrashAndWait(s, elapsed), env)
    ensures var t := After(s, CrashAndWait(s, elapsed), env);
            && t.blobs == s.blobs && t.jobs == s.jobs && t.results == s.results && t.clock == s.clock + elapsed
            && forall i :: 0 <= i < |t.workers| ==> t.workers[i] == WorkerState([], Ready)
  {
    CrashesAreFeasible(s, |s.workers|, env);
    OneMore(s, CrashFirst(|s.workers|), Tick(elapsed), env);
  }

  /** Once everyone has crashed and a lease has passed, every unfinished job can be claimed,
      whatever state the system was in. */
  lemma OpenBecomesClaimable(s: State, now: int, env: Env)
    requires Accounted(s, env) && now > s.clock + env.cfg.leaseSeconds
    ensures OpenKeys(s.jobs) == ClaimableKeys(s.jobs, now, env.cfg.leaseSeconds)
  {
    hide Durable;
    hide Holding;
    hide WellSpaced;
    forall k | k in OpenKeys(s.jobs) ensures k in ClaimableKeys(s.jobs, now, env.cfg.leaseSeconds) {
      var e := Epoch(k, EpochOf(s, k));
      EmptyOrLogged(s, e, env.cfg.leaseSeconds);
      assert RowTells(s.jobs[k], ClaimsIn(s, e));
    }
  }

  lemma SomeFailsIs(s: State, env: Env)
    ensures SomeFails(s, env) <==> exists k :: k in OpenKeys(s.jobs) && Fails(k, s.jobs[k], s.blobs, s.results, env)
    ensures env.cfg.batchSize > 0 ==> !SomeFails(s, env)
  {
    if env.cfg.batchSize > 0 {
      PositiveBatchNeverFails(s, env);
    }
    hide Fails;
  }

  /** Some unfinished job is one the scorer will fail on. */
  ghost predicate SomeFails(s: State, env: Env) {
    exists k :: k in OpenKeys(s.jobs) && Fails(k, s.jobs[k], s.blobs, s.results, env)
  }

  /** A positive batch size never fails. */
  lemma PositiveBatchNeverFails(s: State, env: Env)
    requires env.cfg.batchSize > 0
    ensures !SomeFails(s, env)
  {
  }

  /** Drain and recovery. Take any reachable state of the protocol, let every worker crash and
      more than a lease go by, which changes no table: `run(once=True)` then terminates. It
      leaves every job finished, with a result under its key, and returns how many were
      unfinished, exactly when no unfinished job is one the scorer fails on, and so always
      with a positive batch size. Otherwise it fails on such a job. */
  method Recover(db: Database, env: Env, worker: nat,
                 ghost workers: nat, ghost ingesters: nat, ghost clock: int, ghost steps: seq<Step>, ghost s: State)
    returns (processed: Option<nat>, ghost pending: set<Key>)
    requires Feasible(Init(workers, ingesters, clock), steps, env) && s == After(Init(workers, ingesters, clock), steps, env)
    requires db.blobs == s.blobs && db.jobs == s.jobs && db.results == s.results
    requires db.clock > s.clock + env.cfg.leaseSeconds && env.cfg.claimBatch >= 1
    modifies db`jobs, db`results, db`clock
    ensures processed.Some? <==> !SomeFails(s, env)
    ensures env.cfg.batchSize > 0 ==> processed.Some?
    ensures processed.Some? ==> processed.value == |OpenKeys(s.jobs)|
    ensures processed.Some? ==> forall k :: k in db.jobs ==> Terminal(db.jobs[k]) && k in db.results
    ensures db.jobs.Keys == s.jobs.Keys
    ensures Drained(s.jobs, s.results, s.blobs, env, db.jobs, db.results, pending)
    ensures processed.Some? ==> pending == {}
  {
    hide *;
    SomeFailsIs(s, env);
    AccountedInit(workers, ingesters, clock, env);
    AccountedRun(Init(workers, ingesters, clock), steps, env);
    OpenBecomesClaimable(s, db.clock, env);
    ReachableIsRoutable(s, env);
    processed, pending := Run(db, env, worker);
    SameKeys(s, env, db.jobs, db.results, pending);
    if processed.Some? {
      DrainedTables(s, env, db.jobs, db.results);
    }
  }

  lemma SameKeys(s: State, env: Env, jobs: map<Key, Job>, results: map<Key, ResultRow>, pending: set<Key>)
    requires Drained(s.jobs, s.results, s.blobs, env, jobs, results, pending)
    ensures jobs.Keys == s.jobs.Keys
  {
  }

  lemma ReachableIsRoutable(s: State, env: Env)
    requires Accounted(s, env)
    ensures Routable(s.blobs)
  {
    hide ClaimsLogged;
    hide Holding;
    hide WorkerOk;
    hide Honest;
  }

  lemma DrainedTables(s: State, env: Env, jobs: map<Key, Job>, results: map<Key, ResultRow>)
    requires Accounted(s, env)
    requires Drained(s.jobs, s.results, s.blobs, env, jobs, results, {}) && OpenKeys(jobs) == {}
    ensures jobs.Keys == s.jobs.Keys
    ensures forall k :: k in jobs ==> Terminal(jobs[k]) && k in results
    ensures forall k :: k in s.jobs ==> UntouchedOrSettled(k, s.jobs[k], jobs[k], s.blobs, s.results, results, env)
  {
    hide ClaimsLogged;
    hide Holding;
    hide WorkerOk;
    hide Honest;
    hide Decide;
    forall k | k in jobs ensures Terminal(jobs[k]) && k in results {
      assert UntouchedOrSettled(k, s.jobs[k], jobs[k], s.blobs, s.results, results, env);
      assert k !in OpenKeys(jobs);
    }
  }

  // ---- End to end --------------------------------------------------------------------------------

  /** The key's job tracks its blob, and if the job is finished so does its result. */
  ghost predicate InTune(s: State, key: Key) {
    Synced(s, key) && (Terminal(s.jobs[key]) ==> ResultTracks(s, key))
  }

  /** The result is for this document: its score, but for `scored_at`, or word that it was
      delivered too often. */
  ghost predicate ResultOf(row: ResultRow, doc: Json, env: Env) {
    && row.hash == Some(Sha256(doc))
    && (IsPoison(row, env) || row == ScoreConversation(doc, env, row.provenance.scoredAt))
  }

  /** A key in tune, once drained, has the result of its blob. */
  lemma DrainedIsScored(s: State, env: Env, jobs: map<Key, Job>, results: map<Key, ResultRow>, key: Key)
    requires Durable(s, env) && InTune(s, key) && key in jobs && key in results && Terminal(jobs[key])
    requires UntouchedOrSettled(key, s.jobs[key], jobs[key], s.blobs, s.results, results, env)
    ensures ResultOf(results[key], s.blobs[key].raw, env)
  {
    hide ScoreConversation;
    hide ScoringRaises;
    hide WorkerOk;
    hide IsPoison;
    hide RowKey;
    DurableBlob(s, env, key);
    assert key in s.results ==> Honest(s.results[key], env);
    if Settled(key, s.jobs[key], jobs[key], s.blobs, s.results, results, env) {
      var job, at := ClaimedJobOf(key, s.jobs[key]), results[key].provenance.scoredAt;
      ScoredRowFacts(s.blobs[key].raw, env, at);
      if job.deliveryCount > env.cfg.maxDelivery {
        PoisonRowIsHonest(job, env, at);
      }
    }
  }

  /** `run(once=True)` after any run, a crash of everyone and a lease's wait, in a system where
      every key is in tune: unless the scorer fails, every job is finished and has the result
      of its blob. */
  method RecoverInTune(db: Database, env: Env, worker: nat,
                       ghost workers: nat, ghost ingesters: nat, ghost clock: int, ghost steps: seq<Step>, ghost s: State)
    returns (processed: Option<nat>)
    requires Feasible(Init(workers, ingesters, clock), steps, env) && s == After(Init(workers, ingesters, clock), steps, env)
    requires forall k :: k in s.jobs ==> InTune(s, k)
    requires db.blobs == s.blobs && db.jobs == s.jobs && db.results == s.results
    requires db.clock > s.clock + env.cfg.leaseSeconds && env.cfg.claimBatch >= 1
    modifies db`jobs, db`results, db`clock
    ensures processed.Some? <==> !SomeFails(s, env)
    ensures env.cfg.batchSize > 0 ==> processed.Some?
    ensures db.jobs.Keys == s.jobs.Keys
    ensures processed.Some? ==> forall k :: k in db.jobs ==>
              && Terminal(db.jobs[k]) && k in db.results && k in db.blobs
              && ResultOf(db.results[k], db.blobs[k].raw, env)
  {
    hide *;
    ghost var pending;
    processed, pending := Recover(db, env, worker, workers, ingesters, clock, steps, s);
    if processed.Some? {
      AccountedInit(workers, ingesters, clock, env);
      AccountedRun(Init(workers, ingesters, clock), steps, env);
      AccountedParts(s, env);
      forall k | k in db.jobs ensures k in db.blobs && ResultOf(db.results[k], db.blobs[k].raw, env) {
        DrainedKey(s, env, db.jobs, db.results, k);
        DrainedIsScored(s, env, db.jobs, db.results, k);
      }
    }
  }

  lemma DrainedKey(s: State, env: Env, jobs: map<Key, Job>, results: map<Key, ResultRow>, key: Key)
    requires Drained(s.jobs, s.results, s.blobs, env, jobs, results, {}) && key in s.jobs && InTune(s, key)
    ensures key in s.blobs && key in jobs
    ensures UntouchedOrSettled(key, s.jobs[key], jobs[key], s.blobs, s.results, results, env)
  {
    hide UntouchedOrSettled;
  }

  /** Every key that was only ever ingested with one document is in tune, at any time. */
  lemma OneContentIsInTune(content: Content, workers: nat, ingesters: nat, clock: int, steps: seq<Step>, env: Env, key: Key)
    requires Feasible(Init(workers, ingesters, clock), steps, env) && OneContent(content, steps)
    requires key in After(Init(workers, ingesters, clock), steps, env).jobs
    ensures var s := After(Init(workers, ingesters, clock), steps, env);
            InTune(s, key) && key in content && key in s.blobs && s.blobs[key].raw == content[key]
  {
    hide WorkerOk;
    hide Honest;
    AccountedInit(workers, ingesters, clock, env);
    AccountedParts(Init(workers, ingesters, clock), env);
    FitsRun(content, Init(workers, ingesters, clock), steps, env);
    var s := After(Init(workers, ingesters, clock), steps, env);
    assert HashFits(content, key, s.jobs[key].hash);
    if key in s.results {
      assert RowFits(content, s.results[key]);
    }
  }

  /** After an orderly run with one ingester, whenever the ingester is idle, every key is in
      tune, though its content may have changed many times. */
  lemma OrderlyIsInTune(workers: nat, clock: int, steps: seq<Step>, env: Env, key: Key)
    requires Feasible(Init(workers, 1, clock), steps, env) && OrderlyRun(Init(workers, 1, clock), steps, env)
    requires NothingPending(After(Init(workers, 1, clock), steps, env))
    requires key in After(Init(workers, 1, clock), steps, env).jobs
    ensures InTune(After(Init(workers, 1, clock), steps, env), key)
  {
    hide ScoreConversation;
    hide IsPoison;
    QueueConverges(workers, clock, steps, env, key);
  }

  /** End to end with one content per key: after any run, a crash of everyone, a lease's wait
      and `run(once=True)`, every job has the result of the one document of its key. */
  method RecoverOneContent(db: Database, env: Env, worker: nat, ghost content: Content,
                           ghost workers: nat, ghost ingesters: nat, ghost clock: int, ghost steps: seq<Step>, ghost s: State)
    returns (processed: Option<nat>)
    requires Feasible(Init(workers, ingesters, clock), steps, env) && s == After(Init(workers, ingesters, clock), steps, env)
    requires OneContent(content, steps)
    requires db.blobs == s.blobs && db.jobs == s.jobs && db.results == s.results
    requires db.clock > s.clock + env.cfg.leaseSeconds && env.cfg.claimBatch >= 1
    modifies db`jobs, db`results, db`clock
    ensures processed.Some? <==> !SomeFails(s, env)
    ensures env.cfg.batchSize > 0 ==> processed.Some?
    ensures db.jobs.Keys == s.jobs.Keys
    ensures processed.Some? ==> forall k :: k in db.jobs ==>
              && Terminal(db.jobs[k]) && k in db.results && k in content
              && ResultOf(db.results[k], content[k], env)
  {
    hide *;
    forall k | k in s.jobs
      ensures InTune(s, k) && k in content && k in s.blobs && s.blobs[k].raw == content[k]
    {
      OneContentIsInTune(content, workers, ingesters, clock, steps, env, k);
    }
    processed := RecoverInTune(db, env, worker, workers, ingesters, clock, steps, s);
  }

  /** End to end with changing content: after an orderly run of one ingester, idle at the end,
      a crash of every worker, a lease's wait and `run(once=True)`, every job has the result of
      the content its key was last ingested with. */
  method RecoverOrderly(db: Database, env: Env, worker: nat,
                        ghost workers: nat, ghost clock: int, ghost steps: seq<Step>, ghost s: State)
    returns (processed: Option<nat>)
    requires Feasible(Init(workers, 1, clock), steps, env) && s == After(Init(workers, 1, clock), steps, env)
    requires OrderlyRun(Init(workers, 1, clock), steps, env) && NothingPending(s)
    requires db.blobs == s.blobs && db.jobs == s.jobs && db.results == s.results
    requires db.clock > s.clock + env.cfg.leaseSeconds && env.cfg.claimBatch >= 1
    modifies db`jobs, db`results, db`clock
    ensures processed.Some? <==> !SomeFails(s, env)
    ensures env.cfg.batchSize > 0 ==> processed.Some?
    ensures db.jobs.Keys == s.jobs.Keys
    ensures processed.Some? ==> forall k :: k in db.jobs ==>
              && Terminal(db.jobs[k]) && k in db.results && k in db.blobs
              && ResultOf(db.results[k], db.blobs[k].raw, env)
  {
    hide *;
    forall k | k in s.jobs ensures InTune(s, k) {
      OrderlyIsInTune(workers, clock, steps, env, k);
    }
    processed := RecoverInTune(db, env, worker, workers, 1, clock, steps, s);
  }
}
