/** A worker nobody disturbs: its protocol steps on a job are `process_one`, and on a batch it
    claimed they are the loop of `run` over that batch. */
module Undisturbed {
  import opened Prelude
  import opened Json
  import opened Config
  import opened Result
  import opened Tables
  import opened Protocol
  import opened Durability
  import opened Refinement
  import opened Store
  import opened Worker

  // ---- One job ------------------------------------------------------------------------------------

  /** The worker did what `process_one` decides at the time it began: the tables are as after
      that decision, and it goes on with the rest of its jobs, unless the scorer failed. */
  ghost predicate DoesAsDecided(s: State, w: nat, t: State, env: Env)
    requires Busy(s, w)
  {
    var todo := s.workers[w].todo;
    var v := Decide(todo[0].job, s.blobs, s.results, env, s.clock);
    && t.jobs == JobsAfter(s.jobs, todo[0].job, v)
    && t.results == ResultsAfter(s.results, v)
    && t.blobs == s.blobs && t.ingesters == s.ingesters
    && t.workers == s.workers[w := if v == Fail then WorkerState(todo, Failed) else WorkerState(todo[1..], Ready)]
  }

  /** The worker at `pc`, some time later, and all else as it was. */
  function Paused(s: State, w: nat, pc: Pc, elapsed: nat): State
    requires w < |s.workers|
  {
    s.(workers := s.workers[w := WorkerState(s.workers[w].todo, pc)], clock := s.clock + elapsed)
  }

  lemma BeginsAndWaits(s: State, w: nat, pause: nat, env: Env)
    requires Busy(s, w) && s.workers[w].pc == Ready
    ensures Feasible(s, [Begin(w), Tick(pause)], env)
    ensures After(s, [Begin(w), Tick(pause)], env) == Paused(s, w, Start(s, w, env), pause)
  {
    hide Start;
    hide Feasible;
    hide After;
    BeginStep(s, Begin(w), env);
    Two(s, Begin(w), Tick(pause), env);
  }

  lemma LooksUpAndWaits(s: State, w: nat, now: int, earlier: nat, pause: nat, env: Env)
    requires Busy(s, w)
    ensures var t := Paused(s, w, Reading(now), earlier);
            var pc := if AlreadyScored(s.results, s.workers[w].todo[0].job) then Marking else Fetching(now);
            && Feasible(t, [ReadResult(w), Tick(pause)], env)
            && After(t, [ReadResult(w), Tick(pause)], env) == Paused(s, w, pc, earlier + pause)
  {
    hide AlreadyScored;
    hide Feasible;
    hide After;
    var t := Paused(s, w, Reading(now), earlier);
    ReadResultStep(t, ReadResult(w), env);
    Two(t, ReadResult(w), Tick(pause), env);
  }

  lemma MarksAsDecided(s: State, w: nat, elapsed: nat, env: Env)
    requires Busy(s, w)
    requires Decide(s.workers[w].todo[0].job, s.blobs, s.results, env, s.clock) == Skip
    ensures var t := Paused(s, w, Marking, elapsed);
            && Enabled(t, Mark(w), env) && DoesAsDecided(s, w, Apply(t, Mark(w), env), env)
            && Apply(t, Mark(w), env).clock == s.clock + elapsed
  {
    hide Decide;
    var t := Paused(s, w, Marking, elapsed);
    assert Enabled(t, Mark(w), env);
    MarkStep(t, Mark(w), env);
    hide Apply;
    hide Enabled;
  }

  /** The scores are in: the worker holds the row decided at the time it began, or the scorer
      has failed. */
  lemma ScoresAndWaits(s: State, w: nat, earlier: nat, pause: nat, env: Env)
    requires Busy(s, w) && s.workers[w].todo[0].job.key in s.blobs
    ensures var t, raw := Paused(s, w, Fetching(s.clock), earlier), s.blobs[s.workers[w].todo[0].job.key].raw;
            var row := ScoreConversation(raw, env, s.clock);
            var pc := if ScoringRaises(raw, env) then Failed else Closing(row, StatusFor(row));
            && Feasible(t, [ReadBlob(w), Tick(pause)], env)
            && var u := After(t, [ReadBlob(w), Tick(pause)], env);
            u == Paused(s, w, pc, earlier + pause).(scorings := u.scorings)
  {
    hide ScoreConversation;
    hide ScoringRaises;
    hide Feasible;
    hide After;
    var t := Paused(s, w, Fetching(s.clock), earlier);
    ReadBlobStep(t, ReadBlob(w), env);
    Two(t, ReadBlob(w), Tick(pause), env);
  }

  lemma ClosesAsDecided(s: State, w: nat, row: ResultRow, status: JobStatus, elapsed: nat, env: Env, u: State)
    requires Busy(s, w) && RowKey(row).Some?
    requires Decide(s.workers[w].todo[0].job, s.blobs, s.results, env, s.clock) == Write(row, status)
    requires u == Paused(s, w, Closing(row, status), elapsed).(scorings := u.scorings)
    ensures Enabled(u, Close(w), env) && DoesAsDecided(s, w, Apply(u, Close(w), env), env)
    ensures Apply(u, Close(w), env).clock == s.clock + elapsed
  {
    hide Decide;
    hide RowKey;
    assert Enabled(u, Close(w), env);
    CloseStep(u, Close(w), env);
    hide Apply;
    hide Enabled;
  }

  lemma FailsAsDecided(s: State, w: nat, elapsed: nat, env: Env, u: State)
    requires Busy(s, w)
    requires Decide(s.workers[w].todo[0].job, s.blobs, s.results, env, s.clock) == Fail
    requires u == Paused(s, w, Failed, elapsed).(scorings := u.scorings)
    ensures DoesAsDecided(s, w, u, env) && u.clock == s.clock + elapsed
  {
    hide Decide;
  }

  lemma PoisonIsDecided(s: State, w: nat, env: Env)
    requires Busy(s, w) && s.workers[w].todo[0].job.deliveryCount > env.cfg.maxDelivery
    ensures var job := s.workers[w].todo[0].job;
            var row := PoisonRow(job, env.cfg, s.clock);
            && Start(s, w, env) == Closing(row, Dead) && RowKey(row).Some?
            && Decide(job, s.blobs, s.results, env, s.clock) == Write(row, Dead)
  {
  }

  lemma ReadingIsDecided(s: State, w: nat, env: Env)
    requires Durable(s, env) && Busy(s, w) && s.workers[w].todo[0].job.deliveryCount <= env.cfg.maxDelivery
    ensures Start(s, w, env) == Reading(s.clock)
    ensures s.workers[w].todo[0].job.key in s.blobs
    ensures var job := s.workers[w].todo[0].job;
            var raw := s.blobs[job.key].raw;
            var row := ScoreConversation(raw, env, s.clock);
            && RowKey(row).Some?
            && Decide(job, s.blobs, s.results, env, s.clock)
               == if AlreadyScored(s.results, job) then Skip
                  else if ScoringRaises(raw, env) then Fail
                  else Write(row, StatusFor(row))
  {
    hide AlreadyScored;
    hide ScoreConversation;
    hide ScoringRaises;
    hide RowKey;
    HeldHasBlob(s, env, w);
    DurableBlob(s, env, Head(s, w).job.key);
    ScoredRowFacts(s.blobs[Head(s, w).job.key].raw, env, s.clock);
  }

  /** What an undisturbed worker leaves, not before it began nor after `elapsed`. */
  ghost predicate DoneBy(s: State, w: nat, t: State, elapsed: nat, env: Env)
    requires Busy(s, w)
  {
    DoesAsDecided(s, w, t, env) && s.clock <= t.clock <= s.clock + elapsed
  }

  lemma PoisonedUndisturbed(s: State, w: nat, env: Env, a: nat)
    requires Busy(s, w) && s.workers[w].pc == Ready && s.workers[w].todo[0].job.deliveryCount > env.cfg.maxDelivery
    ensures Feasible(s, [Begin(w), Tick(a)] + [Close(w)], env)
    ensures DoneBy(s, w, After(s, [Begin(w), Tick(a)] + [Close(w)], env), a, env)
  {
    var row, u := PoisonRow(s.workers[w].todo[0].job, env.cfg, s.clock), Paused(s, w, Start(s, w, env), a);
    PoisonIsDecided(s, w, env);
    assert u == Paused(s, w, Closing(row, Dead), a).(scorings := u.scorings);
    hide *;
    BeginsAndWaits(s, w, a, env);
    ClosesAsDecided(s, w, row, Dead, a, env, u);
    OneMore(s, [Begin(w), Tick(a)], Close(w), env);
    assert DoneBy(s, w, Apply(u, Close(w), env), a, env) by { IsDoneBy(s, w, Apply(u, Close(w), env), a, a, env); }
  }

  lemma IsDoneBy(s: State, w: nat, t: State, taken: nat, elapsed: nat, env: Env)
    requires Busy(s, w) && DoesAsDecided(s, w, t, env) && t.clock == s.clock + taken && taken <= elapsed
    ensures DoneBy(s, w, t, elapsed, env)
  {
    hide DoesAsDecided;
  }

  lemma ReadsUndisturbed(s: State, w: nat, env: Env, a: nat, b: nat)
    requires Durable(s, env) && Busy(s, w) && s.workers[w].pc == Ready
    requires s.workers[w].todo[0].job.deliveryCount <= env.cfg.maxDelivery
    ensures Feasible(s, [Begin(w), Tick(a)] + [ReadResult(w), Tick(b)], env)
    ensures var pc := if AlreadyScored(s.results, s.workers[w].todo[0].job) then Marking else Fetching(s.clock);
            After(s, [Begin(w), Tick(a)] + [ReadResult(w), Tick(b)], env) == Paused(s, w, pc, a + b)
  {
    hide *;
    ReadingIsDecided(s, w, env);
    BeginsAndWaits(s, w, a, env);
    LooksUpAndWaits(s, w, s.clock, a, b, env);
    RunsCompose(s, [Begin(w), Tick(a)], [ReadResult(w), Tick(b)], env);
  }

  lemma SkippedUndisturbed(s: State, w: nat, env: Env, a: nat, b: nat) returns (steps: seq<Step>)
    requires Durable(s, env) && Busy(s, w) && s.workers[w].pc == Ready
    requires s.workers[w].todo[0].job.deliveryCount <= env.cfg.maxDelivery
    requires AlreadyScored(s.results, s.workers[w].todo[0].job)
    ensures Feasible(s, steps, env) && DoneBy(s, w, After(s, steps, env), a + b, env)
  {
    hide *;
    ReadingIsDecided(s, w, env);
    ReadsUndisturbed(s, w, env, a, b);
    steps := [Begin(w), Tick(a)] + [ReadResult(w), Tick(b)];
    MarksAsDecided(s, w, a + b, env);
    OneMore(s, steps, Mark(w), env);
    steps := steps + [Mark(w)];
    IsDoneBy(s, w, After(s, steps, env), a + b, a + b, env);
  }

  /** The last step after scoring, if there is one. */
  lemma FinishesUndisturbed(s: State, w: nat, raw: Json, elapsed: nat, env: Env, u: State) returns (last: seq<Step>)
    requires Busy(s, w)
    requires var row := ScoreConversation(raw, env, s.clock);
             && RowKey(row).Some?
             && Decide(s.workers[w].todo[0].job, s.blobs, s.results, env, s.clock)
                == (if ScoringRaises(raw, env) then Fail else Write(row, StatusFor(row)))
             && u == Paused(s, w, if ScoringRaises(raw, env) then Failed else Closing(row, StatusFor(row)), elapsed)
                     .(scorings := u.scorings)
    ensures Feasible(u, last, env) && DoneBy(s, w, After(u, last, env), elapsed, env)
  {
    hide *;
    if ScoringRaises(raw, env) {
      last := [];
      NoStep(u, env);
      FailsAsDecided(s, w, elapsed, env, u);
    } else {
      var row := ScoreConversation(raw, env, s.clock);
      last := [Close(w)];
      ClosesAsDecided(s, w, row, StatusFor(row), elapsed, env, u);
      OneStep(u, Close(w), env);
    }
    IsDoneBy(s, w, After(u, last, env), elapsed, elapsed, env);
  }

  lemma NoStep(s: State, env: Env)
    ensures Feasible(s, [], env) && After(s, [], env) == s
  {
  }

  /** Where the worker stands once the scorer has answered. */
  ghost predicate AnsweredAt(s: State, w: nat, u: State, elapsed: nat, env: Env)
    requires Busy(s, w)
  {
    && s.workers[w].todo[0].job.key in s.blobs
    && var raw := s.blobs[s.workers[w].todo[0].job.key].raw;
    var row := ScoreConversation(raw, env, s.clock);
    && RowKey(row).Some?
    && Decide(s.workers[w].todo[0].job, s.blobs, s.results, env, s.clock)
       == (if ScoringRaises(raw, env) then Fail else Write(row, StatusFor(row)))
    && u == Paused(s, w, if ScoringRaises(raw, env) then Failed else Closing(row, StatusFor(row)), elapsed)
            .(scorings := u.scorings)
  }

  lemma ScorerAnswers(s: State, w: nat, env: Env, earlier: nat, pause: nat)
    requires Durable(s, env) && Busy(s, w)
    requires s.workers[w].todo[0].job.deliveryCount <= env.cfg.maxDelivery
    requires !AlreadyScored(s.results, s.workers[w].todo[0].job)
    ensures var t := Paused(s, w, Fetching(s.clock), earlier);
            && Feasible(t, [ReadBlob(w), Tick(pause)], env)
            && AnsweredAt(s, w, After(t, [ReadBlob(w), Tick(pause)], env), earlier + pause, env)
  {
    ReadingIsDecided(s, w, env);
    ScoresAndWaits(s, w, earlier, pause, env);
    hide Paused;
    hide Feasible;
    hide After;
    hide Decide;
    hide ScoreConversation;
    hide ScoringRaises;
    hide RowKey;
    hide Durable;
  }

  lemma AnswerFinishes(s: State, w: nat, elapsed: nat, env: Env, u: State) returns (last: seq<Step>)
    requires Busy(s, w) && AnsweredAt(s, w, u, elapsed, env)
    ensures Feasible(u, last, env) && DoneBy(s, w, After(u, last, env), elapsed, env)
  {
    hide Decide;
    hide ScoreConversation;
    hide ScoringRaises;
    hide RowKey;
    hide DoneBy;
    hide Feasible;
    hide After;
    last := FinishesUndisturbed(s, w, s.blobs[s.workers[w].todo[0].job.key].raw, elapsed, env, u);
  }

  lemma ScoredUndisturbed(s: State, w: nat, env: Env, a: nat, b: nat, c: nat) returns (steps: seq<Step>)
    requires Durable(s, env) && Busy(s, w) && s.workers[w].pc == Ready
    requires s.workers[w].todo[0].job.deliveryCount <= env.cfg.maxDelivery
    requires !AlreadyScored(s.results, s.workers[w].todo[0].job)
    ensures Feasible(s, steps, env) && DoneBy(s, w, After(s, steps, env), a + b + c, env)
  {
    hide *;
    ReadsUndisturbed(s, w, env, a, b);
    ScorerAnswers(s, w, env, a + b, c);
    steps := [Begin(w), Tick(a)] + [ReadResult(w), Tick(b)];
    var t := After(s, steps, env);
    var last := AnswerFinishes(s, w, a + b + c, env, After(t, [ReadBlob(w), Tick(c)], env));
    RunsCompose(t, [ReadBlob(w), Tick(c)], last, env);
    RunsCompose(s, steps, [ReadBlob(w), Tick(c)] + last, env);
    steps := steps + ([ReadBlob(w), Tick(c)] + last);
  }

  /** However long it takes between its steps: with nobody else moving, a worker's steps on
      the first job it holds change the tables exactly as `process_one` does at the time the
      worker began, and leave it with the rest of its jobs. */
  lemma UndisturbedIsProcessOne(s: State, w: nat, env: Env, a: nat, b: nat, c: nat) returns (steps: seq<Step>)
    requires Durable(s, env) && Busy(s, w) && s.workers[w].pc == Ready
    ensures Feasible(s, steps, env)
    ensures DoesAsDecided(s, w, After(s, steps, env), env)
    ensures s.clock <= After(s, steps, env).clock <= s.clock + a + b + c
  {
    hide DoesAsDecided;
    hide Durable;
    hide Feasible;
    hide After;
    if s.workers[w].todo[0].job.deliveryCount > env.cfg.maxDelivery {
      steps := [Begin(w), Tick(a)] + [Close(w)];
      PoisonedUndisturbed(s, w, env, a);
    } else if AlreadyScored(s.results, s.workers[w].todo[0].job) {
      steps := SkippedUndisturbed(s, w, env, a, b);
    } else {
      steps := ScoredUndisturbed(s, w, env, a, b, c);
    }
  }

  // ---- A whole batch --------------------------------------------------------------------------------

  function JobsOf(todo: seq<Held>): (r: seq<ClaimedJob>)
    ensures |r| == |todo| && forall i :: 0 <= i < |todo| ==> r[i] == todo[i].job
  {
    seq(|todo|, i requires 0 <= i < |todo| => todo[i].job)
  }

  /** `process_one` applied to job after job, each seeing what the ones before it left, until
      the batch is done or the scorer fails. */
  datatype Processed = Processed(jobs: map<Key, Job>, results: map<Key, ResultRow>, finished: nat)

  function ProcessAll(batch: seq<ClaimedJob>, jobs: map<Key, Job>, results: map<Key, ResultRow>,
                      blobs: map<Key, Blob>, env: Env, now: int): (p: Processed)
    ensures p.finished <= |batch|
    decreases |batch|
  {
    if batch == [] then Processed(jobs, results, 0)
    else
      var v := Decide(batch[0], blobs, results, env, now);
      if v == Fail then Processed(jobs, results, 0)
      else
        var rest := ProcessAll(batch[1..], JobsAfter(jobs, batch[0], v), ResultsAfter(results, v), blobs, env, now);
        Processed(rest.jobs, rest.results, rest.finished + 1)
  }

  /** The tables after the batch, and what is left of it in the worker's hands. */
  ghost predicate DoesBatch(s: State, w: nat, t: State, env: Env)
    requires w < |s.workers|
  {
    var todo := s.workers[w].todo;
    var p := ProcessAll(JobsOf(todo), s.jobs, s.results, s.blobs, env, s.clock);
    && t.jobs == p.jobs && t.results == p.results && t.blobs == s.blobs && t.clock == s.clock
    && t.workers == s.workers[w := if p.finished == |todo| then WorkerState([], Ready)
                                   else WorkerState(todo[p.finished..], Failed)]
  }

  /** Undisturbed, a worker finishes every job it holds, one after another in order, as
      `process_one` would, or stops at the first the scorer fails on with the rest in hand. */
  lemma {:induction false} UndisturbedIsBatch(s: State, w: nat, env: Env) returns (steps: seq<Step>)
    requires Durable(s, env) && w < |s.workers| && s.workers[w].pc == Ready
    ensures Feasible(s, steps, env)
    ensures DoesBatch(s, w, After(s, steps, env), env)
    decreases |s.workers[w].todo|
  {
    hide *;
    if s.workers[w].todo == [] {
      steps := [];
      EmptyBatch(s, w, env);
    } else {
      assert Busy(s, w) by { IsBusy(s, w); }
      steps := UndisturbedIsProcessOne(s, w, env, 0, 0, 0);
      var t := After(s, steps, env);
      if Decide(s.workers[w].todo[0].job, s.blobs, s.results, env, s.clock) == Fail {
        FailedBatch(s, w, t, env);
      } else {
        DurableRun(s, steps, env);
        GoesOn(s, w, t, env);
        var more := UndisturbedIsBatch(t, w, env);
        RunsCompose(s, steps, more, env);
        BatchGoesOn(s, w, t, After(t, more, env), env);
        steps := steps + more;
      }
    }
  }

  lemma IsBusy(s: State, w: nat)
    requires w < |s.workers| && s.workers[w].todo != []
    ensures Busy(s, w)
  {
  }

  lemma EmptyBatch(s: State, w: nat, env: Env)
    requires w < |s.workers| && s.workers[w] == WorkerState([], Ready)
    ensures Feasible(s, [], env) && DoesBatch(s, w, After(s, [], env), env)
  {
    assert s.workers == s.workers[w := WorkerState([], Ready)];
  }

  lemma FailedBatch(s: State, w: nat, t: State, env: Env)
    requires Busy(s, w) && DoesAsDecided(s, w, t, env) && t.clock == s.clock
    requires Decide(s.workers[w].todo[0].job, s.blobs, s.results, env, s.clock) == Fail
    ensures DoesBatch(s, w, t, env)
  {
    hide Decide;
    assert s.workers[w].todo[0..] == s.workers[w].todo;
  }

  lemma GoesOn(s: State, w: nat, t: State, env: Env)
    requires Busy(s, w) && DoesAsDecided(s, w, t, env)
    requires Decide(s.workers[w].todo[0].job, s.blobs, s.results, env, s.clock) != Fail
    ensures w < |t.workers| && t.workers[w].pc == Ready && |t.workers[w].todo| < |s.workers[w].todo|
  {
    hide Decide;
    hide JobsAfter;
    hide ResultsAfter;
  }

  lemma BatchGoesOn(s: State, w: nat, t: State, u: State, env: Env)
    requires Busy(s, w) && DoesAsDecided(s, w, t, env) && t.clock == s.clock
    requires Decide(s.workers[w].todo[0].job, s.blobs, s.results, env, s.clock) != Fail
    requires w < |t.workers| && DoesBatch(t, w, u, env)
    ensures DoesBatch(s, w, u, env)
  {
    hide Decide;
    hide JobsAfter;
    hide ResultsAfter;
    var todo := s.workers[w].todo;
    assert JobsOf(todo)[1..] == JobsOf(todo[1..]);
    var p := ProcessAll(JobsOf(todo[1..]), t.jobs, t.results, t.blobs, env, t.clock);
    assert todo[1..][p.finished..] == todo[p.finished + 1..];
  }

  /** A worker with empty hands may claim any rows that are claimable, up to a batch, and,
      undisturbed, finishes them all in the order they were handed out. */
  lemma ClaimThenBatch(s: State, w: nat, keys: seq<Key>, env: Env) returns (steps: seq<Step>)
    requires Durable(s, env) && w < |s.workers| && s.workers[w] == WorkerState([], Ready)
    requires Distinct(keys) && |keys| <= env.cfg.claimBatch
    requires forall k :: k in keys ==> k in s.jobs && Claimable(s.jobs[k], s.clock, env.cfg.leaseSeconds)
    ensures Feasible(s, [Claim(w, keys)] + steps, env)
    ensures var t := After(s, [Claim(w, keys)] + steps, env);
            var claimed := ClaimRows(s.jobs, Elements(keys), w, s.clock);
            var p := ProcessAll(HandOut(s.jobs, keys), claimed, s.results, s.blobs, env, s.clock);
            && t.jobs == p.jobs && t.results == p.results && t.blobs == s.blobs
            && w < |t.workers| && |t.workers[w].todo| == |keys| - p.finished
            && (p.finished == |keys| ==> t.workers[w] == WorkerState([], Ready))
  {
    hide ProcessAll;
    hide Durable;
    hide LogClaims;
    hide ClaimRows;
    hide Feasible;
    hide After;
    var t := Apply(s, Claim(w, keys), env);
    ClaimStep(s, Claim(w, keys), env);
    OneStep(s, Claim(w, keys), env);
    DurableStep(s, Claim(w, keys), env);
    hide Apply;
    hide Enabled;
    assert JobsOf(t.workers[w].todo) == HandOut(s.jobs, keys);
    steps := UndisturbedIsBatch(t, w, env);
    RunsCompose(s, [Claim(w, keys)], steps, env);
  }
}
