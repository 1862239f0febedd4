/** How often a job is scored: every claim is in at most one pair of hands, is scored at
    most once, and not at all past the delivery limit. */
module Scoring {
  import opened Prelude
  import opened Json
  import opened Config
  import opened Result
  import opened Tables
  import opened Protocol
  import opened Durability
  import opened Leases

  predicate InHand(s: State, w: nat, i: nat) {
    w < |s.workers| && i < |s.workers[w].todo|
  }

  function HeldAt(s: State, w: nat, i: nat): Held
    requires InHand(s, w, i)
  {
    s.workers[w].todo[i]
  }

  predicate BeforeScoring(pc: Pc) {
    pc == Ready || pc.Reading? || pc.Fetching?
  }

  /** The worker has yet to score this job, if it ever will. */
  predicate Unscored(s: State, w: nat, i: nat) {
    InHand(s, w, i) && (i > 0 || BeforeScoring(s.workers[w].pc))
  }

  /** The i-th job in a hand is one that was claimed in its epoch, under the number it bears. */
  ghost predicate HeldWereClaimed(s: State) {
    forall w: nat, i: nat :: InHand(s, w, i) ==>
      1 <= HeldAt(s, w, i).job.deliveryCount <= |ClaimsIn(s, HeldEpoch(HeldAt(s, w, i)))|
  }

  predicate SameClaim(h: Held, g: Held) {
    HeldEpoch(h) == HeldEpoch(g) && h.job.deliveryCount == g.job.deliveryCount
  }

  /** No claim is in two places. */
  ghost predicate HeldOnce(s: State) {
    forall w: nat, i: nat, v: nat, j: nat :: InHand(s, w, i) && InHand(s, v, j) ==>
      SameClaim(HeldAt(s, w, i), HeldAt(s, v, j)) ==> w == v && i == j
  }

  ghost predicate ScoredOnce(counts: seq<nat>, max: int, claims: nat) {
    Distinct(counts) && forall i :: 0 <= i < |counts| ==> 1 <= counts[i] <= max && counts[i] <= claims
  }

  ghost predicate ScoredAreClaimed(s: State, max: int) {
    forall e :: e in s.scorings ==> ScoredOnce(s.scorings[e], max, |ClaimsIn(s, e)|)
  }

  ghost predicate UnscoredAreNew(s: State) {
    forall w: nat, i: nat :: Unscored(s, w, i) ==>
      HeldAt(s, w, i).job.deliveryCount !in ScoringsIn(s, HeldEpoch(HeldAt(s, w, i)))
  }

  ghost predicate PastTheTest(s: State, max: int) {
    forall w: nat :: Busy(s, w) && (s.workers[w].pc.Reading? || s.workers[w].pc.Fetching?) ==>
      HeldAt(s, w, 0).job.deliveryCount <= max
  }

  ghost predicate Holding(s: State, max: int) {
    HeldWereClaimed(s) && HeldOnce(s) && ScoredAreClaimed(s, max) && UnscoredAreNew(s) && PastTheTest(s, max)
  }

  // ---- A worker moves along ----------------------------------------------------------

  /** Where a job in hand was, before worker `w` put its first `drop` jobs aside. */
  function Before(w: nat, drop: nat, v: nat, i: nat): nat {
    if v == w then i + drop else i
  }

  /** `t` is `s` with worker `w` at `pc`, its first `drop` jobs put aside. */
  ghost predicate Moved(s: State, t: State, w: nat, drop: nat, pc: Pc) {
    && w < |s.workers| && drop <= |s.workers[w].todo|
    && t.claims == s.claims
    && t.workers == s.workers[w := WorkerState(s.workers[w].todo[drop..], pc)]
  }

  lemma MovedPositions(s: State, t: State, w: nat, drop: nat, pc: Pc)
    requires Moved(s, t, w, drop, pc)
    ensures forall v: nat, i: nat :: InHand(t, v, i) ==>
              && InHand(s, v, Before(w, drop, v, i))
              && HeldAt(t, v, i) == HeldAt(s, v, Before(w, drop, v, i))
  {
  }

  lemma MovedKeepsHands(s: State, t: State, w: nat, drop: nat, pc: Pc)
    requires Moved(s, t, w, drop, pc) && HeldWereClaimed(s) && HeldOnce(s)
    ensures HeldWereClaimed(t) && HeldOnce(t)
  {
    MovedPositions(s, t, w, drop, pc);
    hide HeldAt;
    hide InHand;
    hide Moved;
    assert t.claims == s.claims by { MovedClaims(s, t, w, drop, pc); }
    forall v: nat, i: nat | InHand(t, v, i)
      ensures 1 <= HeldAt(t, v, i).job.deliveryCount <= |ClaimsIn(t, HeldEpoch(HeldAt(t, v, i)))|
    {
      assert InHand(s, v, Before(w, drop, v, i));
    }
    forall u: nat, i: nat, v: nat, j: nat | InHand(t, u, i) && InHand(t, v, j)
      ensures SameClaim(HeldAt(t, u, i), HeldAt(t, v, j)) ==> u == v && i == j
    {
      assert InHand(s, u, Before(w, drop, u, i)) && InHand(s, v, Before(w, drop, v, j));
    }
  }

  lemma MovedClaims(s: State, t: State, w: nat, drop: nat, pc: Pc)
    requires Moved(s, t, w, drop, pc)
    ensures t.claims == s.claims
  {
  }

  /** A move keeps the scoring log in step with the hands, if what it now calls unscored
      it called unscored before, and what it lets past the poison test may pass. */
  lemma MovedKeepsHolding(s: State, t: State, w: nat, drop: nat, pc: Pc, max: int)
    requires Moved(s, t, w, drop, pc) && Holding(s, max)
    requires t.scorings == s.scorings
    requires drop == 0 && BeforeScoring(pc) ==> BeforeScoring(s.workers[w].pc)
    requires (pc.Reading? || pc.Fetching?) && drop < |s.workers[w].todo| ==>
               s.workers[w].todo[drop].job.deliveryCount <= max
    ensures Holding(t, max)
  {
    MovedKeepsHands(s, t, w, drop, pc);
    MovedPositions(s, t, w, drop, pc);
    forall v: nat, i: nat | Unscored(t, v, i)
      ensures HeldAt(t, v, i).job.deliveryCount !in ScoringsIn(t, HeldEpoch(HeldAt(t, v, i)))
    {
      assert Unscored(s, v, Before(w, drop, v, i));
    }
    assert PastTheTest(t, max) by {
      forall v: nat | Busy(t, v) && (t.workers[v].pc.Reading? || t.workers[v].pc.Fetching?)
        ensures HeldAt(t, v, 0).job.deliveryCount <= max
      {
        if v != w {
          assert Busy(s, v);
        }
      }
    }
  }

  lemma SameHandsKeepHolding(s: State, t: State, max: int)
    requires Holding(s, max)
    requires t.claims == s.claims && t.scorings == s.scorings && t.workers == s.workers
    ensures Holding(t, max)
  {
    assert forall v: nat, i: nat :: InHand(t, v, i) ==> InHand(s, v, i) && HeldAt(t, v, i) == HeldAt(s, v, i);
    assert forall v: nat, i: nat :: Unscored(t, v, i) ==> Unscored(s, v, i);
    assert forall v: nat :: Busy(t, v) ==> Busy(s, v);
  }

  // ---- A worker scores -----------------------------------------------------------------

  lemma ScoringKeepsHolding(s: State, t: State, w: nat, pc: Pc, max: int)
    requires Moved(s, t, w, 0, pc) && Holding(s, max)
    requires Busy(s, w) && s.workers[w].pc.Fetching? && !BeforeScoring(pc)
    requires var h := HeldAt(s, w, 0);
             t.scorings == s.scorings[HeldEpoch(h) := ScoringsIn(s, HeldEpoch(h)) + [h.job.deliveryCount]]
    ensures Holding(t, max)
  {
    var h := HeldAt(s, w, 0);
    var earlier, x := ScoringsIn(s, HeldEpoch(h)), h.job.deliveryCount;
    MovedKeepsHands(s, t, w, 0, pc);
    MovedPositions(s, t, w, 0, pc);
    assert Unscored(s, w, 0);
    assert x !in earlier;
    assert ScoredOnce(earlier + [x], max, |ClaimsIn(s, HeldEpoch(h))|);
    forall v: nat, i: nat | Unscored(t, v, i)
      ensures HeldAt(t, v, i).job.deliveryCount !in ScoringsIn(t, HeldEpoch(HeldAt(t, v, i)))
    {
      assert Unscored(s, v, i) && InHand(s, w, 0) && (v != w || i != 0);
      assert !SameClaim(HeldAt(s, v, i), h);
    }
    assert PastTheTest(t, max) by {
      assert forall v: nat :: Busy(t, v) ==> Busy(s, v);
    }
  }

  // ---- A worker claims -----------------------------------------------------------------

  lemma HandedAt(s: State, keys: seq<Key>, i: nat)
    requires i < |keys| && forall k :: k in keys ==> k in s.jobs
    ensures keys[i] in s.jobs
    ensures Handed(s, keys)[i]
            == Held(ClaimedJob(keys[i], s.jobs[keys[i]].hash, s.jobs[keys[i]].deliveryCount + 1), EpochOf(s, keys[i]))
  {
  }

  /** The number on a job just claimed: one more than its epoch had claims before, and as
      many as it has now. */
  lemma FreshNumber(s: State, t: State, w: nat, keys: seq<Key>, lease: int, i: nat)
    requires w < |s.workers| && i < |keys| && forall k :: k in keys ==> k in s.jobs
    requires ClaimsLogged(s, lease)
    requires t.claims == LogClaims(s, Elements(keys), w)
    ensures var h := Handed(s, keys)[i];
            && h.job.key == keys[i]
            && h.job.deliveryCount == |ClaimsIn(s, HeldEpoch(h))| + 1 == |ClaimsIn(t, HeldEpoch(h))|
  {
    hide LogClaims;
    hide Handed;
    HandedAt(s, keys, i);
    var e := Epoch(keys[i], EpochOf(s, keys[i]));
    LoggedClaimsOf(s, Elements(keys), w, e);
    assert keys[i] in Elements(keys);
    assert RowTells(s.jobs[keys[i]], ClaimsIn(s, e));
  }

  lemma ClaimsOnlyGrow(s: State, t: State, w: nat, keys: seq<Key>)
    requires forall k :: k in keys ==> k in s.jobs
    requires t.claims == LogClaims(s, Elements(keys), w)
    ensures forall e :: |ClaimsIn(s, e)| <= |ClaimsIn(t, e)|
  {
    hide LogClaims;
    forall e ensures |ClaimsIn(s, e)| <= |ClaimsIn(t, e)| {
      LoggedClaimsOf(s, Elements(keys), w, e);
    }
  }

  /** `t` is `s` after worker `w`, empty-handed, claimed `keys`. */
  ghost predicate AfterClaim(s: State, t: State, w: nat, keys: seq<Key>) {
    && w < |s.workers| && s.workers[w].todo == []
    && Distinct(keys) && (forall k :: k in keys ==> k in s.jobs)
    && t.claims == LogClaims(s, Elements(keys), w)
    && t.scorings == s.scorings
    && t.workers == s.workers[w := WorkerState(Handed(s, keys), Ready)]
  }

  lemma ClaimedPositions(s: State, t: State, w: nat, keys: seq<Key>)
    requires AfterClaim(s, t, w, keys)
    ensures forall v: nat, i: nat :: InHand(t, v, i) && v != w ==> InHand(s, v, i) && HeldAt(t, v, i) == HeldAt(s, v, i)
    ensures forall i: nat :: InHand(t, w, i) ==> i < |keys| && HeldAt(t, w, i) == Handed(s, keys)[i]
  {
  }

  lemma ClaimKeepsClaimed(s: State, t: State, w: nat, keys: seq<Key>, lease: int)
    requires AfterClaim(s, t, w, keys) && ClaimsLogged(s, lease) && HeldWereClaimed(s)
    ensures HeldWereClaimed(t)
  {
    hide LogClaims;
    hide Handed;
    ClaimedPositions(s, t, w, keys);
    ClaimsOnlyGrow(s, t, w, keys);
    hide ClaimsIn;
    hide ClaimsLogged;
    forall v: nat, i: nat | InHand(t, v, i)
      ensures 1 <= HeldAt(t, v, i).job.deliveryCount <= |ClaimsIn(t, HeldEpoch(HeldAt(t, v, i)))|
    {
      if v == w {
        FreshNumber(s, t, w, keys, lease, i);
      }
    }
  }

  lemma ClaimKeepsOnce(s: State, t: State, w: nat, keys: seq<Key>, lease: int)
    requires AfterClaim(s, t, w, keys) && ClaimsLogged(s, lease) && HeldWereClaimed(s) && HeldOnce(s)
    ensures HeldOnce(t)
  {
    hide LogClaims;
    hide Handed;
    ClaimedPositions(s, t, w, keys);
    hide ClaimsIn;
    hide ClaimsLogged;
    forall u: nat, i: nat, v: nat, j: nat | InHand(t, u, i) && InHand(t, v, j)
      ensures SameClaim(HeldAt(t, u, i), HeldAt(t, v, j)) ==> u == v && i == j
    {
      if u == w {
        FreshNumber(s, t, w, keys, lease, i);
      }
      if v == w {
        FreshNumber(s, t, w, keys, lease, j);
      }
    }
  }

  lemma ClaimKeepsLogOfScorings(s: State, t: State, w: nat, keys: seq<Key>, lease: int, max: int)
    requires AfterClaim(s, t, w, keys) && ClaimsLogged(s, lease) && Holding(s, max)
    ensures ScoredAreClaimed(t, max) && UnscoredAreNew(t) && PastTheTest(t, max)
  {
    hide LogClaims;
    hide Handed;
    ClaimedPositions(s, t, w, keys);
    ClaimsOnlyGrow(s, t, w, keys);
    hide ClaimsIn;
    hide ClaimsLogged;
    forall v: nat, i: nat | Unscored(t, v, i)
      ensures HeldAt(t, v, i).job.deliveryCount !in ScoringsIn(t, HeldEpoch(HeldAt(t, v, i)))
    {
      if v == w {
        FreshNumber(s, t, w, keys, lease, i);
        var e := HeldEpoch(HeldAt(t, v, i));
        assert e in s.scorings ==> ScoredOnce(s.scorings[e], max, |ClaimsIn(s, e)|);
      } else {
        assert Unscored(s, v, i);
      }
    }
    assert PastTheTest(t, max) by {
      assert forall v: nat :: Busy(t, v) && v != w ==> Busy(s, v);
    }
  }

  // ---- Every step -------------------------------------------------------------------------

  lemma HoldingClaim(s: State, step: Step, env: Env)
    requires step.Claim? && Enabled(s, step, env)
    requires ClaimsLogged(s, env.cfg.leaseSeconds) && Holding(s, env.cfg.maxDelivery)
    ensures Holding(Apply(s, step, env), env.cfg.maxDelivery)
  {
    hide Handed;
    hide LogClaims;
    hide ClaimRows;
    hide ClaimsLogged;
    var t, lease, max := Apply(s, step, env), env.cfg.leaseSeconds, env.cfg.maxDelivery;
    assert AfterClaim(s, t, step.w, step.keys);
    hide AfterClaim;
    ClaimKeepsClaimed(s, t, step.w, step.keys, lease);
    ClaimKeepsOnce(s, t, step.w, step.keys, lease);
    ClaimKeepsLogOfScorings(s, t, step.w, step.keys, lease, max);
  }

  lemma HoldingLocal(s: State, step: Step, env: Env)
    requires (step.Begin? || step.ReadResult?) && Enabled(s, step, env)
    requires Holding(s, env.cfg.maxDelivery)
    ensures Holding(Apply(s, step, env), env.cfg.maxDelivery)
  {
    hide RejectedRow;
    var t, w := Apply(s, step, env), step.w;
    LocalStep(s, step, env);
    assert s.workers[w].todo[0..] == s.workers[w].todo;
    assert HeldAt(s, w, 0) == Head(s, w);
    MovedKeepsHolding(s, t, w, 0, t.workers[w].pc, env.cfg.maxDelivery);
  }

  lemma HoldingReadBlob(s: State, step: Step, env: Env)
    requires step.ReadBlob? && Enabled(s, step, env)
    requires Holding(s, env.cfg.maxDelivery)
    ensures Holding(Apply(s, step, env), env.cfg.maxDelivery)
  {
    hide RejectedRow;
    hide ScoreConversation;
    hide ScoringRaises;
    var t, w := Apply(s, step, env), step.w;
    LocalStep(s, step, env);
    assert s.workers[w].todo[0..] == s.workers[w].todo;
    assert HeldAt(s, w, 0) == Head(s, w);
    if Head(s, w).job.key in s.blobs {
      ScoringKeepsHolding(s, t, w, t.workers[w].pc, env.cfg.maxDelivery);
    } else {
      MovedKeepsHolding(s, t, w, 0, t.workers[w].pc, env.cfg.maxDelivery);
    }
  }

  lemma HoldingDone(s: State, step: Step, env: Env)
    requires (step.Close? || step.Mark? || step.Crash?) && Enabled(s, step, env)
    requires Holding(s, env.cfg.maxDelivery)
    ensures Holding(Apply(s, step, env), env.cfg.maxDelivery)
  {
    hide Holding;
    var t, w := Apply(s, step, env), step.w;
    var drop := if step.Crash? then |s.workers[w].todo| else 1;
    if s.workers[w].todo == [] && s.workers[w].pc == Ready {
      assert t.workers == s.workers;
      SameHandsKeepHolding(s, t, env.cfg.maxDelivery);
    } else if drop == 0 {
      MovedFromNothing(s, t, w, env.cfg.maxDelivery);
    } else {
      assert step.Crash? ==> s.workers[w].todo[drop..] == [];
      MovedKeepsHolding(s, t, w, drop, Ready, env.cfg.maxDelivery);
    }
  }

  lemma MovedFromNothing(s: State, t: State, w: nat, max: int)
    requires Holding(s, max) && w < |s.workers| && s.workers[w].todo == []
    requires t.claims == s.claims && t.scorings == s.scorings
    requires t.workers == s.workers[w := WorkerState([], Ready)]
    ensures Holding(t, max)
  {
    assert forall v: nat, i: nat :: InHand(t, v, i) ==> InHand(s, v, i) && HeldAt(t, v, i) == HeldAt(s, v, i);
    assert forall v: nat, i: nat :: Unscored(t, v, i) ==> Unscored(s, v, i);
    assert forall v: nat :: Busy(t, v) ==> Busy(s, v);
  }

  lemma HoldingElsewhere(s: State, step: Step, env: Env)
    requires step.IngestBlob? || step.IngestEnqueue? || step.IngestStop? || step.Tick?
    requires Holding(s, env.cfg.maxDelivery) && Enabled(s, step, env)
    ensures Holding(Apply(s, step, env), env.cfg.maxDelivery)
  {
    hide Holding;
    SameHandsKeepHolding(s, Apply(s, step, env), env.cfg.maxDelivery);
  }

  /** All that is kept by every step, together. */
  ghost predicate Accounted(s: State, env: Env) {
    Durable(s, env) && ClaimsLogged(s, env.cfg.leaseSeconds) && Holding(s, env.cfg.maxDelivery)
  }

  lemma AccountedStep(s: State, step: Step, env: Env)
    requires Accounted(s, env) && Enabled(s, step, env)
    ensures Accounted(Apply(s, step, env), env)
  {
    hide *;
    assert Durable(s, env) && ClaimsLogged(s, env.cfg.leaseSeconds) && Holding(s, env.cfg.maxDelivery) by {
      AccountedParts(s, env);
    }
    DurableStep(s, step, env);
    ClaimsLoggedStep(s, step, env);
    match step {
      case Claim(_, _) => HoldingClaim(s, step, env);
      case Begin(_) => HoldingLocal(s, step, env);
      case ReadResult(_) => HoldingLocal(s, step, env);
      case ReadBlob(_) => HoldingReadBlob(s, step, env);
      case Close(_) => HoldingDone(s, step, env);
      case Mark(_) => HoldingDone(s, step, env);
      case Crash(_) => HoldingDone(s, step, env);
      case _ => HoldingElsewhere(s, step, env);
    }
    AccountedWhole(Apply(s, step, env), env);
  }

  lemma AccountedParts(s: State, env: Env)
    requires Accounted(s, env)
    ensures Durable(s, env) && ClaimsLogged(s, env.cfg.leaseSeconds) && Holding(s, env.cfg.maxDelivery)
  {
    hide Durable;
    hide ClaimsLogged;
    hide Holding;
  }

  lemma AccountedWhole(s: State, env: Env)
    requires Durable(s, env) && ClaimsLogged(s, env.cfg.leaseSeconds) && Holding(s, env.cfg.maxDelivery)
    ensures Accounted(s, env)
  {
    hide Durable;
    hide ClaimsLogged;
    hide Holding;
  }

  lemma {:induction false} AccountedRun(s: State, steps: seq<Step>, env: Env)
    requires Accounted(s, env) && Feasible(s, steps, env)
    ensures Accounted(After(s, steps, env), env)
    decreases |steps|
  {
    hide Accounted;
    hide Apply;
    hide Enabled;
    if steps != [] {
      AccountedStep(s, steps[0], env);
      AccountedRun(Apply(s, steps[0], env), steps[1..], env);
    }
  }

  lemma AccountedInit(workers: nat, ingesters: nat, clock: int, env: Env)
    ensures Accounted(Init(workers, ingesters, clock), env)
  {
    hide ScoreConversation;
    hide ScoringRaises;
    hide RejectedRow;
  }

  // ---- Main results --------------------------------------------------------------------------

  /** In every state any run reaches, the jobs of one epoch have been scored at most
      `max_delivery` times in all, each time under a different claim of that epoch, however
      often workers crashed, stalled or had their work reclaimed. */
  lemma BoundedScoring(workers: nat, ingesters: nat, clock: int, steps: seq<Step>, env: Env, e: Epoch)
    requires Feasible(Init(workers, ingesters, clock), steps, env)
    ensures var s := After(Init(workers, ingesters, clock), steps, env);
            && |ScoringsIn(s, e)| <= (if env.cfg.maxDelivery < 0 then 0 else env.cfg.maxDelivery)
            && |ScoringsIn(s, e)| <= |ClaimsIn(s, e)|
            && Distinct(ScoringsIn(s, e))
            && forall x :: x in ScoringsIn(s, e) ==> 1 <= x <= env.cfg.maxDelivery && x <= |ClaimsIn(s, e)|
  {
    var s := After(Init(workers, ingesters, clock), steps, env);
    AccountedInit(workers, ingesters, clock, env);
    AccountedRun(Init(workers, ingesters, clock), steps, env);
    hide Durable;
    hide ClaimsLogged;
    hide HeldOnce;
    hide UnscoredAreNew;
    hide HeldWereClaimed;
    hide PastTheTest;
    if e in s.scorings {
      assert ScoredOnce(s.scorings[e], env.cfg.maxDelivery, |ClaimsIn(s, e)|);
      var scored := s.scorings[e];
      Pigeonhole(scored, if env.cfg.maxDelivery < 0 then 0 else env.cfg.maxDelivery);
      Pigeonhole(scored, |ClaimsIn(s, e)|);
    }
  }

  /** In every state any run reaches, the claims of one epoch are numbered 1, 2, 3, ... in
      order of time, and any two of them are more than the lease apart. So no claim is ever
      handed out twice under the same number. */
  lemma LeaseExclusion(workers: nat, ingesters: nat, clock: int, steps: seq<Step>, env: Env, e: Epoch)
    requires Feasible(Init(workers, ingesters, clock), steps, env)
    ensures var claims := ClaimsIn(After(Init(workers, ingesters, clock), steps, env), e);
            && (forall i :: 0 <= i < |claims| ==> claims[i].count == i + 1)
            && (forall i, j :: 0 <= i < j < |claims| ==> claims[i].time + env.cfg.leaseSeconds < claims[j].time)
  {
    AccountedInit(workers, ingesters, clock, env);
    AccountedRun(Init(workers, ingesters, clock), steps, env);
    hide Durable;
    hide Holding;
    EmptyOrLogged(After(Init(workers, ingesters, clock), steps, env), e, env.cfg.leaseSeconds);
  }

  /** Whenever two hands, or two places in one, hold the same job in the same epoch, they hold
      it under different numbers, and when the later claim was made the earlier one's lease
      had run out. */
  lemma NoOverlapWithinLease(workers: nat, ingesters: nat, clock: int, steps: seq<Step>, env: Env,
                             u: nat, i: nat, v: nat, j: nat)
    requires Feasible(Init(workers, ingesters, clock), steps, env)
    requires var s := After(Init(workers, ingesters, clock), steps, env);
             && InHand(s, u, i) && InHand(s, v, j) && (u != v || i != j)
             && HeldEpoch(HeldAt(s, u, i)) == HeldEpoch(HeldAt(s, v, j))
    ensures var s := After(Init(workers, ingesters, clock), steps, env);
            var claims := ClaimsIn(s, HeldEpoch(HeldAt(s, u, i)));
            var a, b := HeldAt(s, u, i).job.deliveryCount, HeldAt(s, v, j).job.deliveryCount;
            && 1 <= a <= |claims| && 1 <= b <= |claims| && a != b
            && (a < b ==> claims[a - 1].time + env.cfg.leaseSeconds < claims[b - 1].time)
            && (b < a ==> claims[b - 1].time + env.cfg.leaseSeconds < claims[a - 1].time)
  {
    var s := After(Init(workers, ingesters, clock), steps, env);
    AccountedInit(workers, ingesters, clock, env);
    AccountedRun(Init(workers, ingesters, clock), steps, env);
    hide Durable;
    hide ScoredAreClaimed;
    hide UnscoredAreNew;
    hide PastTheTest;
    hide After;
    hide Feasible;
    EmptyOrLogged(s, HeldEpoch(HeldAt(s, u, i)), env.cfg.leaseSeconds);
    hide ClaimsLogged;
    assert !SameClaim(HeldAt(s, u, i), HeldAt(s, v, j));
  }
}
