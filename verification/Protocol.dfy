/** Ingesters and workers sharing the tables, one database step at a time. Any actor may
    move next; workers may crash anywhere or sit on a claim past its lease. */
module Protocol {
  import opened Prelude
  import opened Json
  import opened Config
  import opened Result
  import opened Tables

  /** One enqueue of changed content opens an epoch of its key. */
  datatype Epoch = Epoch(key: Key, number: nat)

  datatype ClaimEvent = ClaimEvent(count: nat, time: int, worker: nat)

  /** A claimed job in a worker's hands, with the epoch it was claimed in. */
  datatype Held = Held(job: ClaimedJob, epoch: nat)

  /** Where a worker stands in `process_one` on the first job it holds. */
  datatype Pc =
    | Ready                                         // not started
    | Reading(now: int)                             // about to read the result
    | Fetching(now: int)                            // about to read the blob
    | Marking                                       // about to close a duplicate
    | Closing(row: ResultRow, status: JobStatus)    // about to commit a row
    | Failed                                        // the scorer failed: `run` has ended

  datatype WorkerState = WorkerState(todo: seq<Held>, pc: Pc)

  /** Between its two transactions an ingester has stored a blob it has not enqueued. */
  datatype Ingester = Idle | Stored(doc: Json)

  /** Tables, actors and clock; then history no actor reads: how many epochs each key
      has had, and the claims and scorings of each epoch. */
  datatype State = State(
    clock: int,
    blobs: map<Key, Blob>,
    jobs: map<Key, Job>,
    results: map<Key, ResultRow>,
    workers: seq<WorkerState>,
    ingesters: seq<Ingester>,
    epochs: map<Key, nat>,
    claims: map<Epoch, seq<ClaimEvent>>,
    scorings: map<Epoch, seq<nat>>)

  datatype Step =
    | IngestBlob(i: nat, doc: Json)
    | IngestEnqueue(i: nat)
    | IngestStop(i: nat)
    | Claim(w: nat, keys: seq<Key>)
    | Begin(w: nat)
    | ReadResult(w: nat)
    | ReadBlob(w: nat)
    | Close(w: nat)
    | Mark(w: nat)
    | Crash(w: nat)
    | Tick(elapsed: nat)

  function Init(workers: nat, ingesters: nat, clock: int): State {
    State(clock, map[], map[], map[],
          seq(workers, _ => WorkerState([], Ready)), seq(ingesters, _ => Idle),
          map[], map[], map[])
  }

  function ClaimsIn(s: State, e: Epoch): seq<ClaimEvent> {
    if e in s.claims then s.claims[e] else []
  }

  function ScoringsIn(s: State, e: Epoch): seq<nat> {
    if e in s.scorings then s.scorings[e] else []
  }

  function EpochOf(s: State, key: Key): nat {
    if key in s.epochs then s.epochs[key] else 0
  }

  function HeldEpoch(h: Held): Epoch {
    Epoch(h.job.key, h.epoch)
  }

  // ---- Which steps can happen ---------------------------------------------------

  predicate Busy(s: State, w: nat) {
    w < |s.workers| && s.workers[w].todo != []
  }

  /** A claim takes rows of its choice among the claimable ones: those locked by another
      session are skipped, so any of them may be passed over. */
  predicate Enabled(s: State, step: Step, env: Env) {
    match step
    case IngestBlob(i, doc) => i < |s.ingesters| && s.ingesters[i] == Idle && Identity(doc).Some?
    case IngestEnqueue(i) => i < |s.ingesters| && s.ingesters[i].Stored? && Identity(s.ingesters[i].doc).Some?
    case IngestStop(i) => i < |s.ingesters|
    case Claim(w, keys) =>
      && w < |s.workers| && s.workers[w] == WorkerState([], Ready)
      && Distinct(keys) && |keys| <= env.cfg.claimBatch
      && forall k :: k in keys ==> k in s.jobs && Claimable(s.jobs[k], s.clock, env.cfg.leaseSeconds)
    case Begin(w) => Busy(s, w) && s.workers[w].pc == Ready
    case ReadResult(w) => Busy(s, w) && s.workers[w].pc.Reading?
    case ReadBlob(w) => Busy(s, w) && s.workers[w].pc.Fetching?
    case Close(w) => Busy(s, w) && s.workers[w].pc.Closing? && RowKey(s.workers[w].pc.row).Some?
    case Mark(w) => Busy(s, w) && s.workers[w].pc.Marking?
    case Crash(w) => w < |s.workers|
    case Tick(_) => true
  }

  // ---- What they do -------------------------------------------------------------

  function WithPc(s: State, w: nat, pc: Pc): State
    requires w < |s.workers|
  {
    s.(workers := s.workers[w := s.workers[w].(pc := pc)])
  }

  /** The worker is done with the first job it holds. */
  function NextJob(s: State, w: nat): State
    requires Busy(s, w)
  {
    s.(workers := s.workers[w := WorkerState(s.workers[w].todo[1..], Ready)])
  }

  function Handed(s: State, keys: seq<Key>): (r: seq<Held>)
    requires forall k :: k in keys ==> k in s.jobs
    ensures |r| == |keys|
  {
    seq(|keys|, i requires 0 <= i < |keys| =>
      Held(ClaimedJobOf(keys[i], s.jobs[keys[i]]), EpochOf(s, keys[i])))
  }

  /** One claim event is added to the current epoch of each claimed key. */
  function LogClaims(s: State, keys: set<Key>, w: nat): map<Epoch, seq<ClaimEvent>>
    requires forall k :: k in keys ==> k in s.jobs
  {
    var touched := map k | k in keys ::
      Epoch(k, EpochOf(s, k)) := ClaimsIn(s, Epoch(k, EpochOf(s, k)))
                                 + [ClaimEvent(s.jobs[k].deliveryCount + 1, s.clock, w)];
    s.claims + touched
  }

  function Head(s: State, w: nat): Held
    requires Busy(s, w)
  {
    s.workers[w].todo[0]
  }

  function StoreBlob(s: State, i: nat, doc: Json): State
    requires i < |s.ingesters| && Identity(doc).Some?
  {
    s.(blobs := UpsertBlob(s.blobs, Identity(doc).value, Sha256(doc), doc),
       ingesters := s.ingesters[i := Stored(doc)])
  }

  function EnqueueStored(s: State, i: nat): State
    requires i < |s.ingesters| && s.ingesters[i].Stored? && Identity(s.ingesters[i].doc).Some?
  {
    var doc := s.ingesters[i].doc;
    var key := Identity(doc).value;
    s.(jobs := Enqueue(s.jobs, key, Sha256(doc), s.clock),
       epochs := if IsNews(s.jobs, key, Sha256(doc)) then s.epochs[key := EpochOf(s, key) + 1] else s.epochs,
       ingesters := s.ingesters[i := Idle])
  }

  function TakeClaim(s: State, w: nat, keys: seq<Key>): State
    requires w < |s.workers| && forall k :: k in keys ==> k in s.jobs
  {
    s.(jobs := ClaimRows(s.jobs, Elements(keys), w, s.clock),
       claims := LogClaims(s, Elements(keys), w),
       workers := s.workers[w := WorkerState(Handed(s, keys), Ready)])
  }

  /** The poison test, made before anything is read. */
  function Start(s: State, w: nat, env: Env): Pc
    requires Busy(s, w)
  {
    var job := Head(s, w).job;
    if job.deliveryCount > env.cfg.maxDelivery then Closing(PoisonRow(job, env.cfg, s.clock), Dead)
    else Reading(s.clock)
  }

  function Score(s: State, w: nat, now: int, env: Env): State
    requires Busy(s, w)
  {
    var h := Head(s, w);
    if h.job.key !in s.blobs then
      WithPc(s, w, Closing(BlobMissingRow(h.job, env.cfg, now), Dead))
    else
      var raw := s.blobs[h.job.key].raw;
      var row := ScoreConversation(raw, env, now);
      WithPc(s, w, if ScoringRaises(raw, env) then Failed else Closing(row, StatusFor(row)))
      .(scorings := s.scorings[HeldEpoch(h) := ScoringsIn(s, HeldEpoch(h)) + [h.job.deliveryCount]])
  }

  /** Results upsert and job status flip, in one transaction. */
  function Commit(s: State, w: nat, row: ResultRow, status: JobStatus): State
    requires Busy(s, w) && RowKey(row).Some?
  {
    var key := RowKey(row).value;
    NextJob(s, w).(results := s.results[key := row], jobs := SetStatus(s.jobs, key, status))
  }

  function Apply(s: State, step: Step, env: Env): State
    requires Enabled(s, step, env)
  {
    match step
    case IngestBlob(i, doc) => StoreBlob(s, i, doc)
    case IngestEnqueue(i) => EnqueueStored(s, i)
    case IngestStop(i) => s.(ingesters := s.ingesters[i := Idle])
    case Claim(w, keys) => TakeClaim(s, w, keys)
    case Begin(w) => WithPc(s, w, Start(s, w, env))
    case ReadResult(w) =>
      WithPc(s, w, if AlreadyScored(s.results, Head(s, w).job) then Marking else Fetching(s.workers[w].pc.now))
    case ReadBlob(w) => Score(s, w, s.workers[w].pc.now, env)
    case Close(w) => Commit(s, w, s.workers[w].pc.row, s.workers[w].pc.status)
    case Mark(w) => NextJob(s, w).(jobs := SetStatus(s.jobs, Head(s, w).job.key, Done))
    case Crash(w) => s.(workers := s.workers[w := WorkerState([], Ready)])
    case Tick(elapsed) => s.(clock := s.clock + elapsed)
  }

  // ---- What they leave alone ------------------------------------------------------

  predicate TouchesJobs(step: Step) {
    step.IngestEnqueue? || step.Claim? || step.Close? || step.Mark?
  }

  lemma QuietStepIs(step: Step)
    requires !step.IngestEnqueue? && !step.Claim? && !step.Close? && !step.Mark?
    ensures !TouchesJobs(step)
  {
  }

  lemma QuietStep(s: State, step: Step, env: Env)
    requires Enabled(s, step, env) && !TouchesJobs(step)
    ensures var t := Apply(s, step, env);
            t.jobs == s.jobs && t.epochs == s.epochs && t.claims == s.claims && t.clock >= s.clock
            && t.results == s.results
  {
    hide EnqueueStored;
    hide TakeClaim;
    hide Commit;
    hide ScoreConversation;
    hide ScoringRaises;
    hide RejectedRow;
    if step.Begin? || step.ReadResult? || step.ReadBlob? {
      LocalStep(s, step, env);
    }
  }

  /** Moving along `process_one` short of its last step changes only the worker's own
      position, and for a scoring the log of scorings. */
  lemma LocalStep(s: State, step: Step, env: Env)
    requires Enabled(s, step, env) && (step.Begin? || step.ReadResult? || step.ReadBlob?)
    ensures var t := Apply(s, step, env);
            && t == s.(workers := t.workers, scorings := t.scorings)
            && t.workers == s.workers[step.w := s.workers[step.w].(pc := t.workers[step.w].pc)]
            && (!step.ReadBlob? ==> t.scorings == s.scorings)
  {
    hide StoreBlob;
    hide EnqueueStored;
    hide TakeClaim;
    hide Commit;
    hide Identity;
    hide RowKey;
    hide AlreadyScored;
    hide ScoreConversation;
    hide ScoringRaises;
    hide RejectedRow;
    hide Start;
    if step.ReadBlob? {
      ScoreIsLocal(s, step.w, s.workers[step.w].pc.now, env);
      hide Score;
    }
  }

  lemma ScoreIsLocal(s: State, w: nat, now: int, env: Env)
    requires Busy(s, w)
    ensures var t := Score(s, w, now, env);
            && t == s.(workers := t.workers, scorings := t.scorings)
            && |t.workers| == |s.workers|
            && t.workers == s.workers[w := s.workers[w].(pc := t.workers[w].pc)]
  {
    hide ScoreConversation;
    hide ScoringRaises;
    hide RejectedRow;
    hide RowKey;
    hide Identity;
  }

  lemma StoreStep(s: State, step: Step, env: Env)
    requires step.IngestBlob? && Enabled(s, step, env)
    ensures step.i < |s.ingesters| && s.ingesters[step.i] == Idle && Identity(step.doc).Some?
    ensures Apply(s, step, env) == StoreBlob(s, step.i, step.doc)
  {
    hide StoreBlob;
    hide EnqueueStored;
    hide TakeClaim;
    hide Score;
    hide Commit;
    hide Identity;
  }

  lemma EnqueueStep(s: State, step: Step, env: Env)
    requires step.IngestEnqueue? && Enabled(s, step, env)
    ensures step.i < |s.ingesters| && s.ingesters[step.i].Stored? && Identity(s.ingesters[step.i].doc).Some?
    ensures Apply(s, step, env) == EnqueueStored(s, step.i)
  {
    hide StoreBlob;
    hide EnqueueStored;
    hide TakeClaim;
    hide Score;
    hide Commit;
    hide Identity;
  }

  lemma ClaimStep(s: State, step: Step, env: Env)
    requires step.Claim? && Enabled(s, step, env)
    ensures step.w < |s.workers| && s.workers[step.w] == WorkerState([], Ready) && Distinct(step.keys)
    ensures forall k :: k in step.keys ==> k in s.jobs && Claimable(s.jobs[k], s.clock, env.cfg.leaseSeconds)
    ensures Apply(s, step, env) == TakeClaim(s, step.w, step.keys)
  {
    hide StoreBlob;
    hide EnqueueStored;
    hide TakeClaim;
    hide Score;
    hide Start;
    hide Commit;
    hide Identity;
    hide AlreadyScored;
    hide RowKey;
  }

  lemma BeginStep(s: State, step: Step, env: Env)
    requires step.Begin? && Enabled(s, step, env)
    ensures Busy(s, step.w) && Apply(s, step, env) == WithPc(s, step.w, Start(s, step.w, env))
  {
    hide StoreBlob;
    hide EnqueueStored;
    hide TakeClaim;
    hide Score;
    hide Start;
    hide Commit;
    hide Identity;
    hide AlreadyScored;
    hide RowKey;
  }

  lemma ReadResultStep(s: State, step: Step, env: Env)
    requires step.ReadResult? && Enabled(s, step, env)
    ensures Busy(s, step.w) && s.workers[step.w].pc.Reading?
    ensures var pc := if AlreadyScored(s.results, Head(s, step.w).job) then Marking else Fetching(s.workers[step.w].pc.now);
            Apply(s, step, env) == WithPc(s, step.w, pc)
  {
    hide StoreBlob;
    hide EnqueueStored;
    hide TakeClaim;
    hide Score;
    hide Start;
    hide Commit;
    hide Identity;
    hide AlreadyScored;
    hide RowKey;
  }

  lemma ReadBlobStep(s: State, step: Step, env: Env)
    requires step.ReadBlob? && Enabled(s, step, env)
    ensures Busy(s, step.w) && s.workers[step.w].pc.Fetching?
    ensures Apply(s, step, env) == Score(s, step.w, s.workers[step.w].pc.now, env)
  {
    hide StoreBlob;
    hide EnqueueStored;
    hide TakeClaim;
    hide Score;
    hide Start;
    hide Commit;
    hide Identity;
    hide AlreadyScored;
    hide RowKey;
  }

  /** A score is stamped with the time its worker began, however long it took since. */
  lemma ScoredAtStart(s: State, step: Step, env: Env)
    requires step.ReadBlob? && Enabled(s, step, env)
    ensures var t := Apply(s, step, env);
            && step.w < |t.workers| && s.workers[step.w].pc.Fetching?
            && (t.workers[step.w].pc.Closing? ==>
                  t.workers[step.w].pc.row.provenance.scoredAt == s.workers[step.w].pc.now)
  {
    hide ScoreBody;
    hide ScoringRaises;
    ReadBlobStep(s, step, env);
    hide Apply;
    hide Enabled;
  }

  /** Every call of the scorer is logged once, under the claim it was made for, and nothing
      else is. */
  lemma ScoringIsLogged(s: State, step: Step, env: Env)
    requires step.ReadBlob? && Enabled(s, step, env)
    ensures step.w < |s.workers| && s.workers[step.w].todo != []
    ensures var h := s.workers[step.w].todo[0];
            var e := Epoch(h.job.key, h.epoch);
            Apply(s, step, env).scorings
            == if h.job.key in s.blobs then s.scorings[e := ScoringsIn(s, e) + [h.job.deliveryCount]] else s.scorings
  {
    hide ScoreConversation;
    hide ScoringRaises;
    hide RejectedRow;
    ReadBlobStep(s, step, env);
    hide Apply;
    hide Enabled;
  }

  lemma CloseStep(s: State, step: Step, env: Env)
    requires step.Close? && Enabled(s, step, env)
    ensures var t, pc := Apply(s, step, env), s.workers[step.w].pc;
            && t.jobs == SetStatus(s.jobs, RowKey(pc.row).value, pc.status)
            && t.results == s.results[RowKey(pc.row).value := pc.row]
            && t.workers == s.workers[step.w := WorkerState(s.workers[step.w].todo[1..], Ready)]
            && t == s.(jobs := t.jobs, results := t.results, workers := t.workers)
  {
  }

  lemma MarkStep(s: State, step: Step, env: Env)
    requires step.Mark? && Enabled(s, step, env)
    ensures var t := Apply(s, step, env);
            && t.jobs == SetStatus(s.jobs, Head(s, step.w).job.key, Done)
            && t.workers == s.workers[step.w := WorkerState(s.workers[step.w].todo[1..], Ready)]
            && t == s.(jobs := t.jobs, workers := t.workers)
  {
  }

  // ---- Runs -----------------------------------------------------------------------

  /** The steps can be taken one after another from `s`. */
  predicate Feasible(s: State, steps: seq<Step>, env: Env)
    decreases |steps|
  {
    steps == [] || (Enabled(s, steps[0], env) && Feasible(Apply(s, steps[0], env), steps[1..], env))
  }

  /** Where they lead. */
  function After(s: State, steps: seq<Step>, env: Env): State
    requires Feasible(s, steps, env)
    decreases |steps|
  {
    if steps == [] then s else After(Apply(s, steps[0], env), steps[1..], env)
  }

  lemma {:induction false} RunsCompose(s: State, first: seq<Step>, second: seq<Step>, env: Env)
    requires Feasible(s, first, env) && Feasible(After(s, first, env), second, env)
    ensures Feasible(s, first + second, env)
    ensures After(s, first + second, env) == After(After(s, first, env), second, env)
    decreases |first|
  {
    hide Apply;
    hide Enabled;
    if first == [] {
      assert first + second == second;
    } else {
      assert (first + second)[1..] == first[1..] + second;
      RunsCompose(Apply(s, first[0], env), first[1..], second, env);
    }
  }

  lemma OneStep(s: State, step: Step, env: Env)
    requires Enabled(s, step, env)
    ensures Feasible(s, [step], env) && After(s, [step], env) == Apply(s, step, env)
  {
    hide Apply;
    hide Enabled;
    var t := Apply(s, step, env);
    assert [step][1..] == [];
    assert Feasible(t, [], env) && After(t, [], env) == t;
  }

  /** The run extended by one step. */
  lemma OneMore(start: State, steps: seq<Step>, step: Step, env: Env)
    requires Feasible(start, steps, env) && Enabled(After(start, steps, env), step, env)
    ensures Feasible(start, steps + [step], env)
    ensures After(start, steps + [step], env) == Apply(After(start, steps, env), step, env)
  {
    hide *;
    OneStep(After(start, steps, env), step, env);
    RunsCompose(start, steps, [step], env);
  }

  lemma Two(s: State, first: Step, second: Step, env: Env)
    requires Enabled(s, first, env) && Enabled(Apply(s, first, env), second, env)
    ensures Feasible(s, [first, second], env)
    ensures After(s, [first, second], env) == Apply(Apply(s, first, env), second, env)
  {
    hide *;
    OneStep(s, first, env);
    OneMore(s, [first], second, env);
    assert [first] + [second] == [first, second];
  }

  /** The two steps that every job not poisoned begins with. */
  lemma LooksUpResult(s: State, w: nat, env: Env)
    requires Busy(s, w) && s.workers[w].pc == Ready
    requires Head(s, w).job.deliveryCount <= env.cfg.maxDelivery
    ensures Feasible(s, [Begin(w), ReadResult(w)], env)
    ensures var pc := if AlreadyScored(s.results, Head(s, w).job) then Marking else Fetching(s.clock);
            After(s, [Begin(w), ReadResult(w)], env) == WithPc(s, w, pc)
  {
    hide RejectedRow;
    hide AlreadyScored;
    hide Feasible;
    hide After;
    var s1 := Apply(s, Begin(w), env);
    BeginStep(s, Begin(w), env);
    assert s1.workers[w] == s.workers[w].(pc := Reading(s.clock));
    ReadResultStep(s1, ReadResult(w), env);
    Two(s, Begin(w), ReadResult(w), env);
    var pc := if AlreadyScored(s.results, Head(s, w).job) then Marking else Fetching(s.clock);
    assert Apply(s1, ReadResult(w), env).workers == WithPc(s, w, pc).workers;
  }
}
