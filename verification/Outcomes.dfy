/** What a job's status and hash say about its result: what always holds, and exactly which
    step can break what does not. */
module Outcomes {
  import opened Prelude
  import opened Json
  import opened Config
  import opened Result
  import opened Tables
  import opened Protocol
  import opened Durability
  import opened Scoring
  import opened Refinement

  predicate RejectedResult(s: State, key: Key) {
    key in s.results && s.results[key].body.status == Rejected
  }

  // ---- Dead jobs ---------------------------------------------------------------------------

  ghost predicate DeadAreRejected(s: State) {
    && (forall k :: k in s.jobs && s.jobs[k].status == Dead ==> RejectedResult(s, k))
    && (forall i :: 0 <= i < |s.workers| && s.workers[i].pc.Closing? ==>
          s.workers[i].pc.status == StatusFor(s.workers[i].pc.row))
  }

  lemma DeadAreRejectedLocal(s: State, step: Step, env: Env)
    requires step.Begin? || step.ReadResult? || step.ReadBlob?
    requires DeadAreRejected(s) && Enabled(s, step, env)
    ensures DeadAreRejected(Apply(s, step, env))
  {
    hide ScoreConversation;
    hide ScoringRaises;
    LocalStep(s, step, env);
  }

  lemma DeadAreRejectedCommit(s: State, step: Step, env: Env)
    requires step.Close? || step.Mark? || step.Claim?
    requires DeadAreRejected(s) && Enabled(s, step, env)
    ensures DeadAreRejected(Apply(s, step, env))
  {
    hide RowKey;
    hide LogClaims;
    hide Handed;
    if step.Close? {
      CloseStep(s, step, env);
      hide Apply;
    } else if step.Mark? {
      MarkStep(s, step, env);
      hide Apply;
    }
  }

  lemma DeadAreRejectedElsewhere(s: State, step: Step, env: Env)
    requires step.IngestBlob? || step.IngestEnqueue? || step.IngestStop? || step.Crash? || step.Tick?
    requires DeadAreRejected(s) && Enabled(s, step, env)
    ensures DeadAreRejected(Apply(s, step, env))
  {
    hide Identity;
    hide TakeClaim;
    hide Score;
    hide Commit;
  }

  lemma DeadAreRejectedStep(s: State, step: Step, env: Env)
    requires DeadAreRejected(s) && Enabled(s, step, env)
    ensures DeadAreRejected(Apply(s, step, env))
  {
    hide *;
    match step
    case Begin(_) => DeadAreRejectedLocal(s, step, env);
    case ReadResult(_) => DeadAreRejectedLocal(s, step, env);
    case ReadBlob(_) => DeadAreRejectedLocal(s, step, env);
    case Claim(_, _) => DeadAreRejectedCommit(s, step, env);
    case Close(_) => DeadAreRejectedCommit(s, step, env);
    case Mark(_) => DeadAreRejectedCommit(s, step, env);
    case _ => DeadAreRejectedElsewhere(s, step, env);
  }

  lemma {:induction false} DeadAreRejectedRun(s: State, steps: seq<Step>, env: Env)
    requires DeadAreRejected(s) && Feasible(s, steps, env)
    ensures DeadAreRejected(After(s, steps, env))
    decreases |steps|
  {
    hide DeadAreRejected;
    hide Apply;
    hide Enabled;
    if steps != [] {
      DeadAreRejectedStep(s, steps[0], env);
      DeadAreRejectedRun(Apply(s, steps[0], env), steps[1..], env);
    }
  }

  /** In every state any run reaches, a dead job's result is a rejection. */
  lemma DeadMeansRejected(workers: nat, ingesters: nat, clock: int, steps: seq<Step>, env: Env, key: Key)
    requires Feasible(Init(workers, ingesters, clock), steps, env)
    requires var s := After(Init(workers, ingesters, clock), steps, env); key in s.jobs && s.jobs[key].status == Dead
    ensures RejectedResult(After(Init(workers, ingesters, clock), steps, env), key)
  {
    DeadAreRejectedRun(Init(workers, ingesters, clock), steps, env);
  }

  // ---- Dead exactly when rejected ------------------------------------------------------------

  /** If the job is finished, it is dead exactly when its result is a rejection. */
  predicate StatusTells(s: State, key: Key) {
    key in s.jobs && Terminal(s.jobs[key]) ==> (s.jobs[key].status == Dead <==> RejectedResult(s, key))
  }

  /** A worker marks as done, without a look at it, a result that is a rejection. */
  predicate MarksRejection(s: State, step: Step, key: Key) {
    step.Mark? && Busy(s, step.w) && Head(s, step.w).job.key == key && RejectedResult(s, key)
  }

  /** From a state where the status tells, it goes on telling after any step but one: the
      duplicate skip, when the result it relies on is a rejection. */
  lemma StatusTellsStep(s: State, step: Step, env: Env, key: Key)
    requires Durable(s, env) && DeadAreRejected(s) && Enabled(s, step, env) && StatusTells(s, key)
    ensures StatusTells(Apply(s, step, env), key) <==> !MarksRejection(s, step, key)
  {
    hide ScoreConversation;
    hide ScoringRaises;
    hide Honest;
    hide Durable;
    hide Identity;
    hide LogClaims;
    hide Handed;
    if step.Begin? || step.ReadResult? || step.ReadBlob? {
      LocalStep(s, step, env);
    } else if step.Close? {
      CloseStep(s, step, env);
      ClosingFacts(s, step.w, env);
      hide Apply;
    } else if step.Mark? {
      MarkStep(s, step, env);
      HeldHasBlob(s, env, step.w);
      hide Apply;
    } else if step.IngestEnqueue? {
      EnqueueStep(s, step, env);
      hide Apply;
    } else if step.IngestBlob? {
      StoreStep(s, step, env);
      hide Apply;
    }
  }

  /** The status tells in every state of the run. */
  ghost predicate StatusAlwaysTells(s: State, steps: seq<Step>, env: Env, key: Key)
    requires Feasible(s, steps, env)
    decreases |steps|
  {
    StatusTells(s, key) && (steps == [] || StatusAlwaysTells(Apply(s, steps[0], env), steps[1..], env, key))
  }

  ghost predicate NeverMarksRejection(s: State, steps: seq<Step>, env: Env, key: Key)
    requires Feasible(s, steps, env)
    decreases |steps|
  {
    steps == []
    || (!MarksRejection(s, steps[0], key) && NeverMarksRejection(Apply(s, steps[0], env), steps[1..], env, key))
  }

  lemma {:induction false} StatusTellsOnward(s: State, steps: seq<Step>, env: Env, key: Key)
    requires Feasible(s, steps, env) && Durable(s, env) && DeadAreRejected(s) && StatusTells(s, key)
    ensures StatusAlwaysTells(s, steps, env, key) <==> NeverMarksRejection(s, steps, env, key)
    decreases |steps|
  {
    hide Durable;
    hide DeadAreRejected;
    hide Apply;
    hide Enabled;
    hide StatusTells;
    hide MarksRejection;
    if steps != [] {
      var t := Apply(s, steps[0], env);
      StatusTellsStep(s, steps[0], env, key);
      if StatusTells(t, key) {
        DurableStep(s, steps[0], env);
        DeadAreRejectedStep(s, steps[0], env);
        StatusTellsOnward(t, steps[1..], env, key);
      }
    }
  }

  /** Over any run from empty tables, the status tells in every state if and only if no step
      marks a rejection. */
  lemma StatusTellsThroughout(workers: nat, ingesters: nat, clock: int, steps: seq<Step>, env: Env, key: Key)
    requires Feasible(Init(workers, ingesters, clock), steps, env)
    ensures var start := Init(workers, ingesters, clock);
            StatusAlwaysTells(start, steps, env, key) <==> NeverMarksRejection(start, steps, env, key)
  {
    AccountedInit(workers, ingesters, clock, env);
    AccountedParts(Init(workers, ingesters, clock), env);
    StatusTellsOnward(Init(workers, ingesters, clock), steps, env, key);
  }

  // ---- The result is for the content the job tracks ------------------------------------------

  /** If the job is finished, its result is for the content the job tracks. */
  predicate HashTells(s: State, key: Key) {
    key in s.jobs && Terminal(s.jobs[key]) ==> key in s.results && s.results[key].hash == Some(s.jobs[key].hash)
  }

  /** A worker closes the job with a row for content the job does not track, or marks it done
      when its result is for other content. This is the comparison that the update of the job
      leaves out: its WHERE clause names the key alone, not the hash. */
  predicate ClosesOtherContent(s: State, step: Step, key: Key) {
    && key in s.jobs && (step.Close? || step.Mark?) && Busy(s, step.w) && Head(s, step.w).job.key == key
    && (step.Close? && s.workers[step.w].pc.Closing? ==> s.workers[step.w].pc.row.hash != Some(s.jobs[key].hash))
    && (step.Mark? ==> key in s.results ==> s.results[key].hash != Some(s.jobs[key].hash))
  }

  /** From a state where the result is for the tracked content, it stays so after any step but
      one: a close or a mark whose result is for other content, which neither checks. */
  lemma HashTellsStep(s: State, step: Step, env: Env, key: Key)
    requires Durable(s, env) && Enabled(s, step, env) && HashTells(s, key)
    ensures HashTells(Apply(s, step, env), key) <==> !ClosesOtherContent(s, step, key)
  {
    hide ScoreConversation;
    hide ScoringRaises;
    hide Honest;
    hide Durable;
    hide Identity;
    hide LogClaims;
    hide Handed;
    hide RowKey;
    if step.Begin? || step.ReadResult? || step.ReadBlob? {
      LocalStep(s, step, env);
    } else if step.Close? {
      CloseStep(s, step, env);
      ClosingFacts(s, step.w, env);
      HeldHasBlob(s, env, step.w);
    } else if step.Mark? {
      MarkStep(s, step, env);
      HeldHasBlob(s, env, step.w);
    }
  }

  /** The result is for the tracked content in every state of the run. */
  ghost predicate HashAlwaysTells(s: State, steps: seq<Step>, env: Env, key: Key)
    requires Feasible(s, steps, env)
    decreases |steps|
  {
    HashTells(s, key) && (steps == [] || HashAlwaysTells(Apply(s, steps[0], env), steps[1..], env, key))
  }

  ghost predicate NeverClosesOtherContent(s: State, steps: seq<Step>, env: Env, key: Key)
    requires Feasible(s, steps, env)
    decreases |steps|
  {
    steps == []
    || (!ClosesOtherContent(s, steps[0], key) && NeverClosesOtherContent(Apply(s, steps[0], env), steps[1..], env, key))
  }

  lemma {:induction false} HashTellsOnward(s: State, steps: seq<Step>, env: Env, key: Key)
    requires Feasible(s, steps, env) && Durable(s, env) && HashTells(s, key)
    ensures HashAlwaysTells(s, steps, env, key) <==> NeverClosesOtherContent(s, steps, env, key)
    decreases |steps|
  {
    hide Durable;
    hide Apply;
    hide Enabled;
    hide HashTells;
    hide ClosesOtherContent;
    if steps != [] {
      var t := Apply(s, steps[0], env);
      HashTellsStep(s, steps[0], env, key);
      if HashTells(t, key) {
        DurableStep(s, steps[0], env);
        HashTellsOnward(t, steps[1..], env, key);
      }
    }
  }

  /** Over any run from empty tables, the result is for the tracked content in every state if
      and only if no step closes or marks for other content. */
  lemma HashTellsThroughout(workers: nat, ingesters: nat, clock: int, steps: seq<Step>, env: Env, key: Key)
    requires Feasible(Init(workers, ingesters, clock), steps, env)
    ensures var start := Init(workers, ingesters, clock);
            HashAlwaysTells(start, steps, env, key) <==> NeverClosesOtherContent(start, steps, env, key)
  {
    AccountedInit(workers, ingesters, clock, env);
    AccountedParts(Init(workers, ingesters, clock), env);
    HashTellsOnward(Init(workers, ingesters, clock), steps, env, key);
  }

  /** A condition on what is ingested: if every key always comes with the same document, no
      run ever parts the result from the tracked content. */
  lemma OneContentHashTells(content: Content, workers: nat, ingesters: nat, clock: int, steps: seq<Step>, env: Env, key: Key)
    requires Feasible(Init(workers, ingesters, clock), steps, env) && OneContent(content, steps)
    ensures HashTells(After(Init(workers, ingesters, clock), steps, env), key)
  {
    hide WorkerOk;
    hide Honest;
    AccountedInit(workers, ingesters, clock, env);
    AccountedParts(Init(workers, ingesters, clock), env);
    FitsRun(content, Init(workers, ingesters, clock), steps, env);
    var s := After(Init(workers, ingesters, clock), steps, env);
    if key in s.jobs && Terminal(s.jobs[key]) {
      assert HashFits(content, key, s.jobs[key].hash) && RowFits(content, s.results[key]);
      assert RowKey(s.results[key]) == Some(key);
    }
  }

  // ---- A good result -------------------------------------------------------------------------

  /** A worker about to commit holds a `max_delivery_exceeded` row if its claim is beyond the
      limit, and a score otherwise. */
  ghost predicate CommitsAsCounted(w: WorkerState, env: Env) {
    w.todo != [] && w.pc.Closing? ==>
      if w.todo[0].job.deliveryCount > env.cfg.maxDelivery then IsPoison(w.pc.row, env) else IsScoring(w.pc.row, env)
  }

  ghost predicate AllCommitAsCounted(s: State, env: Env) {
    forall i :: 0 <= i < |s.workers| ==> CommitsAsCounted(s.workers[i], env)
  }

  lemma CountedLocal(s: State, step: Step, env: Env)
    requires step.Begin? || step.ReadResult? || step.ReadBlob?
    requires AllCommitAsCounted(s, env) && Durable(s, env) && PastTheTest(s, env.cfg.maxDelivery)
    requires Enabled(s, step, env)
    ensures AllCommitAsCounted(Apply(s, step, env), env)
  {
    hide ScoreConversation;
    hide ScoringRaises;
    hide IsPoison;
    hide RowKey;
    hide Durable;
    hide EnqueueStored;
    hide TakeClaim;
    hide Commit;
    var t, w := Apply(s, step, env), step.w;
    LocalStep(s, step, env);
    var job := Head(s, w).job;
    HeldHasBlob(s, env, w);
    assert HeldAt(s, w, 0) == Head(s, w);
    if step.Begin? && job.deliveryCount > env.cfg.maxDelivery {
      PoisonRowIsHonest(job, env, s.clock);
    } else if step.ReadBlob? {
      DurableBlob(s, env, job.key);
      ScoredRowFacts(s.blobs[job.key].raw, env, s.workers[w].pc.now);
    }
    assert CommitsAsCounted(t.workers[w], env);
  }

  lemma CountedElsewhere(s: State, step: Step, env: Env)
    requires !step.Begin? && !step.ReadResult? && !step.ReadBlob?
    requires AllCommitAsCounted(s, env) && Enabled(s, step, env)
    ensures AllCommitAsCounted(Apply(s, step, env), env)
  {
    hide IsPoison;
    hide IsScoring;
    hide RowKey;
    hide Identity;
    hide LogClaims;
    hide ClaimRows;
    hide Score;
    hide Start;
  }

  lemma CountedStep(s: State, step: Step, env: Env)
    requires AllCommitAsCounted(s, env) && Accounted(s, env) && Enabled(s, step, env)
    ensures AllCommitAsCounted(Apply(s, step, env), env)
  {
    AccountedParts(s, env);
    assert PastTheTest(s, env.cfg.maxDelivery);
    hide *;
    match step
    case Begin(_) => CountedLocal(s, step, env);
    case ReadResult(_) => CountedLocal(s, step, env);
    case ReadBlob(_) => CountedLocal(s, step, env);
    case _ => CountedElsewhere(s, step, env);
  }

  /** A claim beyond the delivery limit is closed. */
  predicate ClosesBeyondLimit(s: State, step: Step, env: Env, key: Key) {
    && step.Close? && Busy(s, step.w) && Head(s, step.w).job.key == key
    && Head(s, step.w).job.deliveryCount > env.cfg.maxDelivery
  }

  /** With one content per key, a result that is no rejection becomes one by the close of a
      claim beyond the delivery limit, and by no other step. */
  lemma GoodResultStep(content: Content, s: State, step: Step, env: Env, key: Key)
    requires Durable(s, env) && Fits(content, s) && AllCommitAsCounted(s, env) && Enabled(s, step, env)
    requires key in s.results && !RejectedResult(s, key)
    ensures key in Apply(s, step, env).results
    ensures RejectedResult(Apply(s, step, env), key) <==> ClosesBeyondLimit(s, step, env, key)
  {
    hide RowKey;
    hide ScoreBody;
    hide ScoringRaises;
    if step.Close? {
      CloseStep(s, step, env);
      ClosingFacts(s, step.w, env);
      ResultIsScore(content, s, env, key);
      assert CommitsAsCounted(s.workers[step.w], env) && WorkerFits(content, s.workers[step.w]);
      hide Apply;
      hide Enabled;
      hide Durable;
      hide TablesFit;
    } else {
      ResultsUntouched(s, step, env);
      hide Apply;
      hide Enabled;
    }
  }

  lemma ResultsUntouched(s: State, step: Step, env: Env)
    requires Enabled(s, step, env) && !step.Close?
    ensures Apply(s, step, env).results == s.results
  {
    hide *;
    if step.Mark? {
      MarkStep(s, step, env);
    } else if step.Claim? || step.IngestEnqueue? {
      ResultsUntouchedByQueue(s, step, env);
    } else {
      QuietStepIs(step);
      QuietStep(s, step, env);
    }
  }

  lemma ResultsUntouchedByQueue(s: State, step: Step, env: Env)
    requires Enabled(s, step, env) && (step.Claim? || step.IngestEnqueue?)
    ensures Apply(s, step, env).results == s.results
  {
    hide Identity;
    hide LogClaims;
    hide ClaimRows;
    hide Handed;
  }

  /** With one content per key, a result that is no rejection is the score of that content. */
  lemma ResultIsScore(content: Content, s: State, env: Env, key: Key)
    requires Durable(s, env) && Fits(content, s) && key in s.results && !RejectedResult(s, key)
    ensures key in content && s.results[key].body == ScoreBody(content[key], env)
  {
    hide ScoreBody;
    hide ScoringRaises;
    hide WorkerOk;
    assert RowFits(content, s.results[key]) && Honest(s.results[key], env);
    assert RowKey(s.results[key]) == Some(key);
  }

  ghost predicate Consistent(content: Content, s: State, env: Env) {
    Accounted(s, env) && Fits(content, s) && AllCommitAsCounted(s, env)
  }

  lemma ConsistentStep(content: Content, s: State, step: Step, env: Env)
    requires Consistent(content, s, env) && Enabled(s, step, env) && StepUses(content, step)
    ensures Consistent(content, Apply(s, step, env), env)
  {
    hide Accounted;
    hide Fits;
    hide AllCommitAsCounted;
    hide Apply;
    hide Enabled;
    AccountedParts(s, env);
    AccountedStep(s, step, env);
    FitsStep(content, s, step, env);
    CountedStep(s, step, env);
  }

  lemma {:induction false} ConsistentRun(content: Content, s: State, steps: seq<Step>, env: Env)
    requires Consistent(content, s, env) && Feasible(s, steps, env) && OneContent(content, steps)
    ensures Consistent(content, After(s, steps, env), env)
    decreases |steps|
  {
    hide Consistent;
    hide Apply;
    hide Enabled;
    hide StepUses;
    if steps != [] {
      assert StepUses(content, steps[0]);
      ConsistentStep(content, s, steps[0], env);
      ConsistentRun(content, Apply(s, steps[0], env), steps[1..], env);
    }
  }

  /** The key's result is no rejection in any state of the run. */
  ghost predicate NeverRejected(s: State, steps: seq<Step>, env: Env, key: Key)
    requires Feasible(s, steps, env)
    decreases |steps|
  {
    !RejectedResult(s, key) && (steps == [] || NeverRejected(Apply(s, steps[0], env), steps[1..], env, key))
  }

  ghost predicate NeverClosesBeyondLimit(s: State, steps: seq<Step>, env: Env, key: Key)
    requires Feasible(s, steps, env)
    decreases |steps|
  {
    steps == []
    || (!ClosesBeyondLimit(s, steps[0], env, key) && NeverClosesBeyondLimit(Apply(s, steps[0], env), steps[1..], env, key))
  }

  lemma {:induction false} GoodResultOnward(content: Content, s: State, steps: seq<Step>, env: Env, key: Key)
    requires Feasible(s, steps, env) && Consistent(content, s, env) && OneContent(content, steps)
    requires key in s.results && !RejectedResult(s, key)
    ensures NeverRejected(s, steps, env, key) <==> NeverClosesBeyondLimit(s, steps, env, key)
    decreases |steps|
  {
    hide Consistent;
    hide Fits;
    hide Durable;
    hide AllCommitAsCounted;
    hide Apply;
    hide Enabled;
    hide StepUses;
    hide RejectedResult;
    hide ClosesBeyondLimit;
    if steps != [] {
      var t := Apply(s, steps[0], env);
      assert StepUses(content, steps[0]);
      ConsistentParts(content, s, env);
      GoodResultStep(content, s, steps[0], env, key);
      if !RejectedResult(t, key) {
        ConsistentStep(content, s, steps[0], env);
        GoodResultOnward(content, t, steps[1..], env, key);
      }
    }
  }

  lemma ConsistentParts(content: Content, s: State, env: Env)
    requires Consistent(content, s, env)
    ensures Durable(s, env) && Fits(content, s) && AllCommitAsCounted(s, env)
  {
    hide Durable;
    hide Fits;
    hide AllCommitAsCounted;
  }

  lemma ConsistentInit(content: Content, workers: nat, ingesters: nat, clock: int, env: Env)
    ensures Consistent(content, Init(workers, ingesters, clock), env)
  {
    AccountedInit(workers, ingesters, clock, env);
    hide Accounted;
  }

  /** Over any run with one content per key: from a state in which the key's result is no
      rejection, it is never one in any later state if and only if no later step closes a
      claim of the key beyond the delivery limit. */
  lemma GoodResultThroughout(content: Content, workers: nat, ingesters: nat, clock: int,
                             first: seq<Step>, second: seq<Step>, env: Env, key: Key)
    requires Feasible(Init(workers, ingesters, clock), first, env)
    requires Feasible(After(Init(workers, ingesters, clock), first, env), second, env)
    requires OneContent(content, first) && OneContent(content, second)
    requires var s := After(Init(workers, ingesters, clock), first, env); key in s.results && !RejectedResult(s, key)
    ensures var s := After(Init(workers, ingesters, clock), first, env);
            NeverRejected(s, second, env, key) <==> NeverClosesBeyondLimit(s, second, env, key)
  {
    hide *;
    ConsistentInit(content, workers, ingesters, clock, env);
    ConsistentRun(content, Init(workers, ingesters, clock), first, env);
    GoodResultOnward(content, After(Init(workers, ingesters, clock), first, env), second, env, key);
  }
}
