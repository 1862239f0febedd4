/** Changing content: with one orderly ingester, queue, blobs and results end up agreeing. */
module Convergence {
  import opened Prelude
  import opened Json
  import opened Config
  import opened Result
  import opened Tables
  import opened Protocol
  import opened Durability
  import opened Scoring
  import opened Refinement

  ghost predicate SomeoneHolds(s: State, key: Key) {
    exists w: nat, i: nat :: InHand(s, w, i) && HeldAt(s, w, i).job.key == key
  }

  /** The ingester is never stopped between its two transactions, and it does not enqueue
      changed content for a key while a worker still holds that key. */
  ghost predicate Orderly(s: State, step: Step) {
    && !step.IngestStop?
    && forall k :: k in s.jobs && EnqueuesNews(s, step, k) ==> !SomeoneHolds(s, k)
  }

  ghost predicate OrderlyRun(s: State, steps: seq<Step>, env: Env)
    requires Feasible(s, steps, env)
    decreases |steps|
  {
    steps == [] || (Orderly(s, steps[0]) && OrderlyRun(Apply(s, steps[0], env), steps[1..], env))
  }

  /** The job tracks the blob stored for its key. */
  predicate Synced(s: State, key: Key) {
    key in s.jobs && key in s.blobs && s.jobs[key].hash == s.blobs[key].hash
  }

  /** The one key that may be out of step: the one the ingester has stored but not enqueued. */
  ghost predicate OnlyPendingOutOfStep(s: State) {
    && |s.ingesters| == 1
    && (s.ingesters[0].Stored? ==>
          && Identity(s.ingesters[0].doc).Some? && Identity(s.ingesters[0].doc).value in s.blobs
          && s.blobs[Identity(s.ingesters[0].doc).value].hash == Sha256(s.ingesters[0].doc))
    && (forall k :: k in s.blobs && !(s.ingesters[0].Stored? && Identity(s.ingesters[0].doc) == Some(k)) ==> Synced(s, k))
  }

  predicate ResultTracks(s: State, key: Key) {
    key in s.jobs && key in s.results && s.results[key].hash == Some(s.jobs[key].hash)
  }

  /** What a worker holds is what the job still asks for; and where the job tracks the blob,
      what the worker is about to commit, or to mark, is for that content. */
  ghost predicate InStep(s: State, w: WorkerState) {
    && (forall h :: h in w.todo ==> h.job.key in s.jobs && h.job.hash == s.jobs[h.job.key].hash)
    && (w.todo != [] && Synced(s, w.todo[0].job.key) ==>
          && (w.pc.Marking? ==> ResultTracks(s, w.todo[0].job.key))
          && (w.pc.Closing? ==> w.pc.row.hash == Some(s.jobs[w.todo[0].job.key].hash)))
  }

  ghost predicate TerminalTracks(s: State) {
    forall k :: Synced(s, k) && Terminal(s.jobs[k]) ==> ResultTracks(s, k)
  }

  ghost predicate Converging(s: State) {
    && OnlyPendingOutOfStep(s)
    && (forall i :: 0 <= i < |s.workers| ==> InStep(s, s.workers[i]))
    && TerminalTracks(s)
  }

  // ---- The ingester -----------------------------------------------------------------------

  /** Only one key's blob or job changed, and it is now out of step or in nobody's hands. */
  lemma InStepElsewhere(s: State, t: State, w: WorkerState, key: Key)
    requires InStep(s, w)
    requires forall k :: k in s.jobs ==> k in t.jobs && (k != key ==> t.jobs[k] == s.jobs[k])
    requires forall k :: k != key ==> (k in t.blobs <==> k in s.blobs) && (k in s.blobs ==> t.blobs[k] == s.blobs[k])
    requires t.results == s.results
    requires (forall h :: h in w.todo ==> h.job.key != key)
             || (t.jobs == s.jobs && (Synced(t, key) ==> Synced(s, key)))
    ensures InStep(t, w)
  {
    if w.todo != [] {
      assert w.todo[0] in w.todo;
    }
  }

  lemma StoreConverges(s: State, step: Step, env: Env)
    requires step.IngestBlob? && Enabled(s, step, env)
    requires Converging(s) && Durable(s, env)
    ensures Converging(Apply(s, step, env))
  {
    hide WorkerOk;
    hide ResultsHonest;
    hide InStep;
    hide Identity;
    var t, key := Apply(s, step, env), Identity(step.doc).value;
    assert key in s.blobs ==> Synced(s, key);
    forall i | 0 <= i < |t.workers| ensures InStep(t, t.workers[i]) {
      InStepElsewhere(s, t, s.workers[i], key);
    }
    forall k | Synced(t, k) && Terminal(t.jobs[k]) ensures ResultTracks(t, k) {
      assert Synced(s, k);
    }
  }

  lemma EnqueueConverges(s: State, step: Step, env: Env)
    requires step.IngestEnqueue? && Enabled(s, step, env) && Orderly(s, step)
    requires Converging(s) && Durable(s, env)
    ensures Converging(Apply(s, step, env))
  {
    hide InStep;
    hide ResultsHonest;
    hide WorkerOk;
    hide Identity;
    assert step.i == 0;
    var t, doc := Apply(s, step, env), s.ingesters[0].doc;
    var key := Identity(doc).value;
    if IsNews(s.jobs, key, Sha256(doc)) {
      forall i: nat | i < |t.workers| ensures InStep(t, t.workers[i]) {
        NobodyHolds(s, step, env, key, i);
        InStepElsewhere(s, t, s.workers[i], key);
      }
    } else {
      forall i | 0 <= i < |t.workers| ensures InStep(t, t.workers[i]) {
        InStepElsewhere(s, t, s.workers[i], key);
      }
    }
    forall k | Synced(t, k) && Terminal(t.jobs[k]) ensures ResultTracks(t, k) {
      assert Synced(s, k);
    }
  }

  lemma NobodyHolds(s: State, step: Step, env: Env, key: Key, i: nat)
    requires Durable(s, env) && Orderly(s, step) && EnqueuesNews(s, step, key) && i < |s.workers|
    ensures forall h :: h in s.workers[i].todo ==> h.job.key != key
  {
    hide Honest;
    hide ResultsHonest;
    assert WorkerOk(s, s.workers[i], env);
    forall h | h in s.workers[i].todo ensures h.job.key != key {
      var j :| 0 <= j < |s.workers[i].todo| && s.workers[i].todo[j] == h;
      assert InHand(s, i, j) && HeldAt(s, i, j) == h;
    }
  }

  // ---- The workers ------------------------------------------------------------------------

  ghost predicate SameHashes(jobs: map<Key, Job>, after: map<Key, Job>) {
    jobs.Keys == after.Keys && forall k :: k in jobs ==> after[k].hash == jobs[k].hash
  }

  /** Job hashes and blobs stay, and every result that tracked its job still does. */
  ghost predicate SameContent(s: State, t: State) {
    && SameHashes(s.jobs, t.jobs) && t.blobs == s.blobs && t.ingesters == s.ingesters
    && forall k :: Synced(s, k) && ResultTracks(s, k) ==> ResultTracks(t, k)
  }

  lemma InStepStays(s: State, t: State, w: WorkerState)
    requires SameContent(s, t) && InStep(s, w)
    ensures InStep(t, w)
  {
    if w.todo != [] {
      assert w.todo[0] in w.todo;
      assert Synced(t, w.todo[0].job.key) ==> Synced(s, w.todo[0].job.key);
    }
  }

  lemma PendingStays(s: State, t: State)
    requires SameContent(s, t) && OnlyPendingOutOfStep(s)
    ensures OnlyPendingOutOfStep(t)
  {
    hide Identity;
    assert forall k :: Synced(s, k) ==> Synced(t, k);
  }

  /** One worker moved; the rest of the state kept its content. */
  lemma WorkerMoveConverges(s: State, t: State, w: nat)
    requires Converging(s) && SameContent(s, t)
    requires w < |s.workers| == |t.workers| && t.workers == s.workers[w := t.workers[w]]
    requires InStep(t, t.workers[w]) && TerminalTracks(t)
    ensures Converging(t)
  {
    hide SameContent;
    hide OnlyPendingOutOfStep;
    hide InStep;
    hide TerminalTracks;
    PendingStays(s, t);
    forall i | 0 <= i < |t.workers| ensures InStep(t, t.workers[i]) {
      if i != w {
        InStepStays(s, t, s.workers[i]);
      }
    }
  }

  lemma ClaimConverges(s: State, step: Step, env: Env)
    requires step.Claim? && Enabled(s, step, env) && Converging(s)
    ensures Converging(Apply(s, step, env))
  {
    hide LogClaims;
    hide Handed;
    hide Identity;
    var t, w := Apply(s, step, env), step.w;
    assert SameContent(s, t);
    forall h | h in t.workers[w].todo ensures h.job.key in t.jobs && h.job.hash == t.jobs[h.job.key].hash {
      var i :| 0 <= i < |step.keys| && Handed(s, step.keys)[i] == h;
      HandedAt(s, step.keys, i);
    }
    forall k | Synced(t, k) && Terminal(t.jobs[k]) ensures ResultTracks(t, k) {
      assert Synced(s, k) && Terminal(s.jobs[k]);
    }
    WorkerMoveConverges(s, t, w);
  }

  lemma LocalConverges(s: State, step: Step, env: Env)
    requires (step.Begin? || step.ReadResult? || step.ReadBlob?) && Enabled(s, step, env)
    requires Converging(s) && Durable(s, env)
    ensures Converging(Apply(s, step, env))
  {
    hide ScoreConversation;
    hide ScoringRaises;
    hide Durable;
    hide Identity;
    hide OnlyPendingOutOfStep;
    var t, w := Apply(s, step, env), step.w;
    LocalStep(s, step, env);
    var h := Head(s, w);
    assert h in s.workers[w].todo && InStep(s, s.workers[w]);
    HeldHasBlob(s, env, w);
    if step.ReadBlob? {
      DurableBlob(s, env, h.job.key);
      ScoredRowFacts(s.blobs[h.job.key].raw, env, s.workers[w].pc.now);
    }
    assert InStep(t, t.workers[w]);
    assert TerminalTracks(t) by {
      assert forall k :: Synced(t, k) ==> Synced(s, k);
    }
    WorkerMoveConverges(s, t, w);
  }

  lemma CloseConverges(s: State, step: Step, env: Env)
    requires step.Close? && Enabled(s, step, env)
    requires Converging(s) && Durable(s, env)
    ensures Converging(Apply(s, step, env))
  {
    hide Durable;
    hide Identity;
    hide OnlyPendingOutOfStep;
    hide Honest;
    hide RowKey;
    var t, w := Apply(s, step, env), step.w;
    CloseStep(s, step, env);
    ClosingFacts(s, w, env);
    var h, row := Head(s, w), s.workers[w].pc.row;
    assert h in s.workers[w].todo && InStep(s, s.workers[w]);
    assert SameHashes(s.jobs, t.jobs);
    assert Synced(s, h.job.key) ==> ResultTracks(t, h.job.key);
    forall k | Synced(t, k) && Terminal(t.jobs[k]) ensures ResultTracks(t, k) {
      assert Synced(s, k);
    }
    assert InStep(t, t.workers[w]) by {
      assert forall g :: g in t.workers[w].todo ==> g in s.workers[w].todo;
    }
    WorkerMoveConverges(s, t, w);
  }

  lemma MarkConverges(s: State, step: Step, env: Env)
    requires step.Mark? && Enabled(s, step, env)
    requires Converging(s) && Durable(s, env)
    ensures Converging(Apply(s, step, env))
  {
    hide Durable;
    hide Identity;
    hide OnlyPendingOutOfStep;
    var t, w := Apply(s, step, env), step.w;
    MarkStep(s, step, env);
    assert InStep(s, s.workers[w]);
    assert SameHashes(s.jobs, t.jobs);
    forall k | Synced(t, k) && Terminal(t.jobs[k]) ensures ResultTracks(t, k) {
      assert Synced(s, k);
    }
    assert InStep(t, t.workers[w]) by {
      assert forall g :: g in t.workers[w].todo ==> g in s.workers[w].todo;
    }
    WorkerMoveConverges(s, t, w);
  }

  lemma CrashConverges(s: State, step: Step, env: Env)
    requires step.Crash? && Enabled(s, step, env) && Converging(s)
    ensures Converging(Apply(s, step, env))
  {
    hide OnlyPendingOutOfStep;
    var t := Apply(s, step, env);
    assert TerminalTracks(t) by {
      assert forall k :: Synced(t, k) ==> Synced(s, k);
    }
    WorkerMoveConverges(s, t, step.w);
  }

  lemma TickConverges(s: State, step: Step, env: Env)
    requires step.Tick? && Enabled(s, step, env) && Converging(s)
    ensures Converging(Apply(s, step, env))
  {
    hide OnlyPendingOutOfStep;
    hide InStep;
    var t := Apply(s, step, env);
    PendingStays(s, t);
    forall i | 0 <= i < |t.workers| ensures InStep(t, t.workers[i]) {
      InStepStays(s, t, s.workers[i]);
    }
    forall k | Synced(t, k) && Terminal(t.jobs[k]) ensures ResultTracks(t, k) {
      assert Synced(s, k);
    }
  }

  lemma ConvergingStep(s: State, step: Step, env: Env)
    requires Converging(s) && Durable(s, env) && Enabled(s, step, env) && Orderly(s, step)
    ensures Converging(Apply(s, step, env))
  {
    hide *;
    match step
    case IngestBlob(_, _) => StoreConverges(s, step, env);
    case IngestEnqueue(_) => EnqueueConverges(s, step, env);
    case IngestStop(_) => OrderlyNeverStops(s, step);
    case Claim(_, _) => ClaimConverges(s, step, env);
    case Begin(_) => LocalConverges(s, step, env);
    case ReadResult(_) => LocalConverges(s, step, env);
    case ReadBlob(_) => LocalConverges(s, step, env);
    case Close(_) => CloseConverges(s, step, env);
    case Mark(_) => MarkConverges(s, step, env);
    case Crash(_) => CrashConverges(s, step, env);
    case Tick(_) => TickConverges(s, step, env);
  }

  lemma OrderlyNeverStops(s: State, step: Step)
    requires Orderly(s, step)
    ensures !step.IngestStop?
  {
  }

  lemma {:induction false} ConvergingRun(s: State, steps: seq<Step>, env: Env)
    requires Converging(s) && Durable(s, env) && Feasible(s, steps, env) && OrderlyRun(s, steps, env)
    ensures Converging(After(s, steps, env)) && Durable(After(s, steps, env), env)
    decreases |steps|
  {
    hide Converging;
    hide Durable;
    hide Apply;
    hide Enabled;
    hide Orderly;
    if steps != [] {
      ConvergingStep(s, steps[0], env);
      DurableStep(s, steps[0], env);
      ConvergingRun(Apply(s, steps[0], env), steps[1..], env);
    }
  }

  predicate NothingPending(s: State) {
    forall i :: 0 <= i < |s.ingesters| ==> s.ingesters[i] == Idle
  }

  /** In every state an orderly run with one ingester reaches: whenever the ingester is idle,
      blobs and jobs have the same keys, each job tracks its blob's content, and each done or
      dead job has a result for that very content, which is its score unless the job was
      delivered too often. This holds even if a worker scored the new blob under the old job
      between the ingester's two transactions. */
  lemma QueueConverges(workers: nat, clock: int, steps: seq<Step>, env: Env, key: Key)
    requires Feasible(Init(workers, 1, clock), steps, env) && OrderlyRun(Init(workers, 1, clock), steps, env)
    requires NothingPending(After(Init(workers, 1, clock), steps, env))
    ensures var s := After(Init(workers, 1, clock), steps, env);
            && (key in s.jobs <==> key in s.blobs)
            && (key in s.jobs ==> s.jobs[key].hash == s.blobs[key].hash == Sha256(s.blobs[key].raw))
            && (key in s.jobs && Terminal(s.jobs[key]) ==>
                  && key in s.results && s.results[key].hash == Some(s.jobs[key].hash)
                  && (IsPoison(s.results[key], env)
                      || s.results[key] == ScoreConversation(s.blobs[key].raw, env, s.results[key].provenance.scoredAt)))
  {
    hide ScoreConversation;
    hide ScoringRaises;
    hide IsPoison;
    hide WorkerOk;
    hide InStep;
    var s := After(Init(workers, 1, clock), steps, env);
    AccountedInit(workers, 1, clock, env);
    AccountedParts(Init(workers, 1, clock), env);
    assert Converging(Init(workers, 1, clock)) by {
      InitConverging(workers, clock);
    }
    ConvergingRun(Init(workers, 1, clock), steps, env);
    assert key in s.blobs ==> Synced(s, key);
    if key in s.jobs && Terminal(s.jobs[key]) {
      assert ResultTracks(s, key);
      assert Honest(s.results[key], env);
    }
  }

  lemma InitConverging(workers: nat, clock: int)
    ensures Converging(Init(workers, 1, clock))
  {
  }
}
