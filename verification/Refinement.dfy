/** The concurrent system refines a function: when every key is only ever ingested with one
    content, whatever happens in between, its result is the score of that content. */
module Refinement {
  import opened Prelude
  import opened Json
  import opened Config
  import opened Metrics
  import opened Schema
  import opened Result
  import opened Tables
  import opened Protocol
  import opened Durability
  import opened Leases
  import opened Scoring

  /** The document each key is ingested with. */
  type Content = map<Key, Json>

  predicate IsContent(content: Content, doc: Json) {
    Identity(doc).Some? ==> Identity(doc).value in content && content[Identity(doc).value] == doc
  }

  predicate StepUses(content: Content, step: Step) {
    step.IngestBlob? ==> IsContent(content, step.doc)
  }

  /** Any number of ingests of any key, always with the same document. */
  ghost predicate OneContent(content: Content, steps: seq<Step>) {
    forall i :: 0 <= i < |steps| ==> StepUses(content, steps[i])
  }

  // ---- Every hash in the system is the hash of the key's content ------------------------

  predicate HashFits(content: Content, key: Key, hash: Digest) {
    key in content && hash == Sha256(content[key])
  }

  predicate RowFits(content: Content, row: ResultRow) {
    RowKey(row).Some? && HashFits(content, RowKey(row).value, row.hash.value)
  }

  ghost predicate WorkerFits(content: Content, w: WorkerState) {
    && (forall h :: h in w.todo ==> HashFits(content, h.job.key, h.job.hash))
    && (w.pc.Closing? ==> RowFits(content, w.pc.row))
  }

  ghost predicate TablesFit(content: Content, s: State) {
    && (forall k :: k in s.blobs ==> k in content && s.blobs[k] == Blob(Sha256(content[k]), content[k]))
    && (forall k :: k in s.jobs ==> HashFits(content, k, s.jobs[k].hash))
    && (forall k :: k in s.results ==> RowFits(content, s.results[k]))
  }

  ghost predicate Fits(content: Content, s: State) {
    && TablesFit(content, s)
    && (forall i :: 0 <= i < |s.ingesters| && s.ingesters[i].Stored? ==> IsContent(content, s.ingesters[i].doc))
    && (forall i :: 0 <= i < |s.workers| ==> WorkerFits(content, s.workers[i]))
  }

  lemma IngestFits(content: Content, s: State, step: Step, env: Env)
    requires step.IngestBlob? || step.IngestEnqueue? || step.IngestStop? || step.Tick? || step.Crash?
    requires Fits(content, s) && Enabled(s, step, env) && StepUses(content, step)
    ensures Fits(content, Apply(s, step, env))
  {
    hide Identity;
    hide RowKey;
  }

  lemma ClaimFits(content: Content, s: State, step: Step, env: Env)
    requires step.Claim? && Fits(content, s) && Enabled(s, step, env)
    ensures Fits(content, Apply(s, step, env))
  {
    hide LogClaims;
    hide RowKey;
    hide Handed;
    var t := Apply(s, step, env);
    forall h | h in t.workers[step.w].todo ensures HashFits(content, h.job.key, h.job.hash) {
      var i :| 0 <= i < |step.keys| && Handed(s, step.keys)[i] == h;
      HandedAt(s, step.keys, i);
    }
  }

  lemma MovedFits(content: Content, s: State, t: State, w: nat)
    requires Fits(content, s) && w < |s.workers|
    requires t.blobs == s.blobs && t.jobs == s.jobs && t.results == s.results && t.ingesters == s.ingesters
    requires |t.workers| == |s.workers| && t.workers == s.workers[w := t.workers[w]]
    requires WorkerFits(content, t.workers[w])
    ensures Fits(content, t)
  {
    hide WorkerFits;
    hide HashFits;
    hide RowFits;
    hide IsContent;
  }

  /** A worker that moves on without touching the tables. */
  lemma LocalFits(content: Content, s: State, step: Step, env: Env)
    requires step.Begin? || step.ReadResult? || step.ReadBlob?
    requires Fits(content, s) && Enabled(s, step, env) && Durable(s, env)
    ensures Fits(content, Apply(s, step, env))
  {
    var t, w := Apply(s, step, env), step.w;
    LocalStep(s, step, env);
    NextPcFits(content, s, step, env);
    hide *;
    MovedFits(content, s, t, w);
  }

  lemma NextPcFits(content: Content, s: State, step: Step, env: Env)
    requires step.Begin? || step.ReadResult? || step.ReadBlob?
    requires Fits(content, s) && Enabled(s, step, env) && Durable(s, env)
    ensures step.w < |s.workers| && step.w < |Apply(s, step, env).workers|
    ensures WorkerFits(content, Apply(s, step, env).workers[step.w])
  {
    var w := step.w;
    if step.Begin? {
      BeginStep(s, step, env);
      hide *;
      BegunFits(content, s, w, env);
    } else if step.ReadResult? {
      ReadResultStep(s, step, env);
      hide Apply;
      hide Enabled;
      hide Durable;
      hide AlreadyScored;
      assert WorkerFits(content, s.workers[w]);
    } else {
      ReadBlobStep(s, step, env);
      hide *;
      ScoredFits(content, s, w, s.workers[w].pc.now, env);
    }
  }

  lemma BegunFits(content: Content, s: State, w: nat, env: Env)
    requires Fits(content, s) && Busy(s, w)
    ensures w < |s.workers| && w < |WithPc(s, w, Start(s, w, env)).workers|
    ensures WorkerFits(content, WithPc(s, w, Start(s, w, env)).workers[w])
  {
    hide TablesFit;
    assert Head(s, w) in s.workers[w].todo && WorkerFits(content, s.workers[w]);
  }

  lemma ScoredFits(content: Content, s: State, w: nat, now: int, env: Env)
    requires Fits(content, s) && Durable(s, env) && Busy(s, w)
    ensures w < |s.workers| && w < |Score(s, w, now, env).workers|
    ensures WorkerFits(content, Score(s, w, now, env).workers[w])
  {
    hide ScoreConversation;
    hide ScoringRaises;
    var h := Head(s, w);
    assert h in s.workers[w].todo && WorkerFits(content, s.workers[w]);
    if h.job.key in s.blobs {
      DurableBlob(s, env, h.job.key);
      ScoredRowFacts(s.blobs[h.job.key].raw, env, now);
    }
    hide Durable;
  }

  lemma DurableBlob(s: State, env: Env, key: Key)
    requires Durable(s, env) && key in s.blobs
    ensures Identity(s.blobs[key].raw) == Some(key) && s.blobs[key].hash == Sha256(s.blobs[key].raw)
  {
    hide WorkerOk;
    hide Honest;
  }

  lemma DoneFits(content: Content, s: State, step: Step, env: Env)
    requires step.Close? || step.Mark?
    requires Fits(content, s) && Enabled(s, step, env)
    ensures Fits(content, Apply(s, step, env))
  {
    hide RowKey;
    var t, w := Apply(s, step, env), step.w;
    assert WorkerFits(content, s.workers[w]);
    assert forall h :: h in t.workers[w].todo ==> h in s.workers[w].todo;
  }

  lemma FitsStep(content: Content, s: State, step: Step, env: Env)
    requires Fits(content, s) && Durable(s, env) && Enabled(s, step, env) && StepUses(content, step)
    ensures Fits(content, Apply(s, step, env))
  {
    hide *;
    match step
    case Claim(_, _) => ClaimFits(content, s, step, env);
    case Begin(_) => LocalFits(content, s, step, env);
    case ReadResult(_) => LocalFits(content, s, step, env);
    case ReadBlob(_) => LocalFits(content, s, step, env);
    case Close(_) => DoneFits(content, s, step, env);
    case Mark(_) => DoneFits(content, s, step, env);
    case _ => IngestFits(content, s, step, env);
  }

  lemma {:induction false} FitsRun(content: Content, s: State, steps: seq<Step>, env: Env)
    requires Fits(content, s) && Durable(s, env) && Feasible(s, steps, env) && OneContent(content, steps)
    ensures Fits(content, After(s, steps, env)) && Durable(After(s, steps, env), env)
    decreases |steps|
  {
    hide Fits;
    hide Durable;
    hide Apply;
    hide Enabled;
    hide StepUses;
    if steps != [] {
      assert StepUses(content, steps[0]);
      FitsStep(content, s, steps[0], env);
      DurableStep(s, steps[0], env);
      FitsRun(content, Apply(s, steps[0], env), steps[1..], env);
    }
  }

  /** Whatever the interleaving of ingesters and workers, with crashes, stalls and stale
      reclaims, and however often a key is ingested again: if it is always the same
      document, then its blob is that document, and its result row is the score of that
      document, but for `scored_at`, unless it is a `max_delivery_exceeded` row for that
      document's hash. */
  lemma ResultsRefineScoring(workers: nat, ingesters: nat, clock: int, steps: seq<Step>, env: Env,
                             content: Content, key: Key)
    requires Feasible(Init(workers, ingesters, clock), steps, env) && OneContent(content, steps)
    requires key in After(Init(workers, ingesters, clock), steps, env).results
    ensures var row := After(Init(workers, ingesters, clock), steps, env).results[key];
            && key in content && row.hash == Some(Sha256(content[key]))
            && !BlobMissing(row)
            && (|| IsPoison(row, env)
                || (!ScoringRaises(content[key], env) && row == ScoreConversation(content[key], env, row.provenance.scoredAt)))
  {
    hide ScoreConversation;
    hide ScoringRaises;
    hide IsPoison;
    hide WorkerOk;
    var s := After(Init(workers, ingesters, clock), steps, env);
    AccountedInit(workers, ingesters, clock, env);
    AccountedParts(Init(workers, ingesters, clock), env);
    FitsRun(content, Init(workers, ingesters, clock), steps, env);
    OutcomesAreDurable(workers, ingesters, clock, steps, env);
    assert RowFits(content, s.results[key]);
  }

  // ---- Poison rows are traces of claims ---------------------------------------------------

  /** Some epoch of the key has had at least this many claims. */
  ghost predicate Reached(s: State, key: Key, count: int) {
    exists n: nat :: count <= |ClaimsIn(s, Epoch(key, n))|
  }

  ghost predicate RowTraced(s: State, row: ResultRow, env: Env) {
    IsPoison(row, env) ==> Reached(s, RowKey(row).value, row.body.error.value.detail.count)
  }

  ghost predicate Traced(s: State, env: Env) {
    && (forall k :: k in s.results ==> RowTraced(s, s.results[k], env))
    && (forall i :: 0 <= i < |s.workers| && s.workers[i].pc.Closing? ==> RowTraced(s, s.workers[i].pc.row, env))
  }

  ghost predicate ClaimsExtend(s: State, t: State) {
    forall e :: |ClaimsIn(s, e)| <= |ClaimsIn(t, e)|
  }

  lemma ClaimsExtendStep(s: State, step: Step, env: Env)
    requires Enabled(s, step, env)
    ensures ClaimsExtend(s, Apply(s, step, env))
  {
    hide ScoreConversation;
    hide ScoringRaises;
    hide RejectedRow;
    hide Handed;
    hide Identity;
    hide LogClaims;
    hide ClaimRows;
    hide Feasible;
    if step.Claim? {
      ClaimsOnlyGrow(s, Apply(s, step, env), step.w, step.keys);
    } else if TouchesJobs(step) {
      assert Apply(s, step, env).claims == s.claims;
    } else {
      QuietStep(s, step, env);
    }
  }

  lemma ReachedExtends(s: State, t: State, row: ResultRow, env: Env)
    requires ClaimsExtend(s, t) && RowTraced(s, row, env)
    ensures RowTraced(t, row, env)
  {
    hide RejectedRow;
    if IsPoison(row, env) {
      var key, count := RowKey(row).value, row.body.error.value.detail.count;
      var n: nat :| count <= |ClaimsIn(s, Epoch(key, n))|;
      assert count <= |ClaimsIn(t, Epoch(key, n))|;
    }
  }

  lemma ScoringIsNeverPoison(raw: Json, env: Env, now: int)
    ensures !IsPoison(ScoreConversation(raw, env, now), env)
  {
    hide OverallSentiment;
    hide SentimentTrajectory;
    hide KeptTurns;
    hide DroppedTurns;
    hide PerTurn;
    hide ScoreByIndex;
  }

  lemma TracedStep(s: State, step: Step, env: Env)
    requires Traced(s, env) && Durable(s, env) && HeldWereClaimed(s) && Enabled(s, step, env)
    ensures Traced(Apply(s, step, env), env)
  {
    hide *;
    var t := Apply(s, step, env);
    ClaimsExtendStep(s, step, env);
    match step
    case Begin(w) => TracedLocal(s, step, env);
    case ReadResult(w) => TracedLocal(s, step, env);
    case ReadBlob(w) => TracedLocal(s, step, env);
    case _ => TracedElsewhere(s, step, env);
  }

  lemma TracedLocal(s: State, step: Step, env: Env)
    requires step.Begin? || step.ReadResult? || step.ReadBlob?
    requires Traced(s, env) && Durable(s, env) && HeldWereClaimed(s) && Enabled(s, step, env)
    requires ClaimsExtend(s, Apply(s, step, env))
    ensures Traced(Apply(s, step, env), env)
  {
    hide ScoreConversation;
    hide ScoringRaises;
    hide ClaimsExtend;
    hide IsPoison;
    hide Durable;
    var t, w := Apply(s, step, env), step.w;
    LocalStep(s, step, env);
    var h := HeldAt(s, w, 0);
    assert h in s.workers[w].todo;
    assert InHand(s, w, 0);
    NewRowTraced(s, step, env);
    forall i | 0 <= i < |t.workers| && t.workers[i].pc.Closing? ensures RowTraced(t, t.workers[i].pc.row, env) {
      if i != w {
        ReachedExtends(s, t, s.workers[i].pc.row, env);
      }
    }
    forall k | k in t.results ensures RowTraced(t, t.results[k], env) {
      ReachedExtends(s, t, s.results[k], env);
    }
  }

  /** A row a worker has just composed. */
  lemma NewRowTraced(s: State, step: Step, env: Env)
    requires step.Begin? || step.ReadResult? || step.ReadBlob?
    requires Durable(s, env) && HeldWereClaimed(s) && Enabled(s, step, env)
    ensures var t := Apply(s, step, env);
            step.w < |t.workers| && (t.workers[step.w].pc.Closing? ==> RowTraced(t, t.workers[step.w].pc.row, env))
  {
    hide ScoreConversation;
    hide ScoringRaises;
    hide Durable;
    var t, w := Apply(s, step, env), step.w;
    LocalStep(s, step, env);
    assert InHand(s, w, 0);
    var h := HeldAt(s, w, 0);
    if step.Begin? {
      assert h.job.deliveryCount <= |ClaimsIn(t, Epoch(h.job.key, h.epoch))|;
    } else if step.ReadBlob? {
      HeldHasBlob(s, env, w);
      ScoringIsNeverPoison(s.blobs[h.job.key].raw, env, s.workers[w].pc.now);
    }
  }

  lemma HeldHasBlob(s: State, env: Env, w: nat)
    requires Durable(s, env) && Busy(s, w)
    ensures Head(s, w).job.key in s.jobs && Head(s, w).job.key in s.blobs
  {
    hide Honest;
    assert WorkerOk(s, s.workers[w], env);
    assert Head(s, w) in s.workers[w].todo;
  }

  lemma TracedElsewhere(s: State, step: Step, env: Env)
    requires !(step.Begin? || step.ReadResult? || step.ReadBlob?)
    requires Traced(s, env) && Enabled(s, step, env)
    requires ClaimsExtend(s, Apply(s, step, env))
    ensures Traced(Apply(s, step, env), env)
  {
    hide ClaimsExtend;
    hide RowTraced;
    hide LogClaims;
    hide Handed;
    hide ClaimRows;
    hide Identity;
    var t := Apply(s, step, env);
    forall i | 0 <= i < |t.workers| && t.workers[i].pc.Closing? ensures RowTraced(t, t.workers[i].pc.row, env) {
      ReachedExtends(s, t, s.workers[i].pc.row, env);
    }
    forall k | k in t.results ensures RowTraced(t, t.results[k], env) {
      if k in s.results && t.results[k] == s.results[k] {
        ReachedExtends(s, t, s.results[k], env);
      } else {
        ReachedExtends(s, t, s.workers[step.w].pc.row, env);
      }
    }
  }

  lemma {:induction false} TracedRun(s: State, steps: seq<Step>, env: Env)
    requires Traced(s, env) && Accounted(s, env) && Feasible(s, steps, env)
    ensures Traced(After(s, steps, env), env) && Accounted(After(s, steps, env), env)
    ensures ClaimsExtend(s, After(s, steps, env))
    decreases |steps|
  {
    hide Traced;
    hide Accounted;
    hide Apply;
    hide Enabled;
    hide Holding;
    if steps != [] {
      var t := Apply(s, steps[0], env);
      AccountedParts(s, env);
      assert HeldWereClaimed(s) by { HoldingHands(s, env.cfg.maxDelivery); }
      TracedStep(s, steps[0], env);
      AccountedStep(s, steps[0], env);
      ClaimsExtendStep(s, steps[0], env);
      TracedRun(t, steps[1..], env);
    }
  }

  lemma HoldingHands(s: State, max: int)
    requires Holding(s, max)
    ensures HeldWereClaimed(s)
  {
  }

  /** No epoch of the key has had more claims than may be delivered. */
  ghost predicate WithinLimit(s: State, key: Key, max: int) {
    forall n: nat :: |ClaimsIn(s, Epoch(key, n))| <= max
  }

  lemma WithinLimitNoPoison(s: State, key: Key, env: Env)
    requires Traced(s, env) && WithinLimit(s, key, env.cfg.maxDelivery)
    requires key in s.results && RowKey(s.results[key]) == Some(key)
    ensures !IsPoison(s.results[key], env)
  {
    hide RejectedRow;
    assert RowTraced(s, s.results[key], env);
  }

  /** Once a key has a result, and as long as none of its claims exceeds `max_delivery`, no
      further step of any run changes that result, except in `scored_at`. */
  lemma ResultsSettle(workers: nat, ingesters: nat, clock: int, first: seq<Step>, second: seq<Step>, env: Env,
                      content: Content, key: Key)
    requires Feasible(Init(workers, ingesters, clock), first, env)
    requires Feasible(After(Init(workers, ingesters, clock), first, env), second, env)
    requires OneContent(content, first + second)
    requires key in After(Init(workers, ingesters, clock), first, env).results
    requires WithinLimit(After(After(Init(workers, ingesters, clock), first, env), second, env), key, env.cfg.maxDelivery)
    ensures var s := After(Init(workers, ingesters, clock), first, env);
            var t := After(s, second, env);
            key in t.results && SameButForTime(s.results[key], t.results[key])
  {
    hide Traced;
    hide Accounted;
    hide IsPoison;
    hide SameButForTime;
    hide ScoreConversation;
    hide ScoringRaises;
    hide Feasible;
    hide Enabled;
    hide Apply;
    hide After;
    var start := Init(workers, ingesters, clock);
    var s := After(start, first, env);
    var t := After(s, second, env);
    RunsCompose(start, first, second, env);
    AccountedInit(workers, ingesters, clock, env);
    TracedInit(workers, ingesters, clock, env);
    TracedRun(start, first, env);
    TracedRun(s, second, env);
    ResultsStay(s, second, env);
    assert WithinLimit(s, key, env.cfg.maxDelivery);
    assert OneContent(content, first) by {
      assert forall i :: 0 <= i < |first| ==> (first + second)[i] == first[i];
    }
    ResultsRefineScoring(workers, ingesters, clock, first, env, content, key);
    ResultsRefineScoring(workers, ingesters, clock, first + second, env, content, key);
    ResultsKeyed(s, env, key);
    ResultsKeyed(t, env, key);
    WithinLimitNoPoison(s, key, env);
    WithinLimitNoPoison(t, key, env);
    ScoringIsReproducible(content[key], env, s.results[key].provenance.scoredAt, t.results[key].provenance.scoredAt);
  }

  lemma TracedInit(workers: nat, ingesters: nat, clock: int, env: Env)
    ensures Traced(Init(workers, ingesters, clock), env)
  {
  }

  lemma ResultsKeyed(s: State, env: Env, key: Key)
    requires Accounted(s, env) && key in s.results
    ensures RowKey(s.results[key]) == Some(key)
  {
    hide ClaimsLogged;
    hide Holding;
    hide WorkerOk;
    hide Honest;
  }

  lemma {:induction false} ResultsStay(s: State, steps: seq<Step>, env: Env)
    requires Feasible(s, steps, env)
    ensures s.results.Keys <= After(s, steps, env).results.Keys
    decreases |steps|
  {
    hide Apply;
    hide Enabled;
    if steps != [] {
      TablesGrow(s, steps[0], env);
      ResultsStay(Apply(s, steps[0], env), steps[1..], env);
    }
  }
}
