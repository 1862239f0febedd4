/** Claims of one epoch: numbered one after another, and further apart than the lease. */
module Leases {
  import opened Prelude
  import opened Json
  import opened Config
  import opened Tables
  import opened Protocol
  import opened Durability

  /** Consecutive counts from 1, in order of time, any two more than a lease apart. */
  ghost predicate WellSpaced(events: seq<ClaimEvent>, lease: int) {
    && (forall i :: 0 <= i < |events| ==> events[i].count == i + 1)
    && (forall i, j :: 0 <= i < j < |events| ==>
          events[i].time <= events[j].time && events[i].time + lease < events[j].time)
  }

  ghost predicate NoneLater(events: seq<ClaimEvent>, clock: int) {
    forall i :: 0 <= i < |events| ==> events[i].time <= clock
  }

  /** A job row tells how often it was claimed in its current epoch, and by whom and when last. */
  ghost predicate RowTells(job: Job, events: seq<ClaimEvent>) {
    && job.deliveryCount == |events|
    && (events != [] ==>
          && job.claimedAt == Some(events[|events| - 1].time)
          && job.claimedBy == Some(events[|events| - 1].worker))
    && (events == [] ==> job.claimedAt == None && job.claimedBy == None)
    && (job.status == Queued ==> events == [])
    && (job.status == Claimed ==> events != [])
  }

  ghost predicate ClaimsLogged(s: State, lease: int) {
    && s.epochs.Keys == s.jobs.Keys
    && (forall e :: e in s.claims ==>
          && e.key in s.epochs && e.number <= s.epochs[e.key]
          && WellSpaced(s.claims[e], lease) && NoneLater(s.claims[e], s.clock))
    && (forall k :: k in s.jobs ==> RowTells(s.jobs[k], ClaimsIn(s, Epoch(k, EpochOf(s, k)))))
  }

  /** One more claim keeps the spacing: the row was fresh, or its lease had run out. */
  lemma OneMoreClaim(job: Job, events: seq<ClaimEvent>, w: nat, clock: int, lease: int)
    requires WellSpaced(events, lease) && NoneLater(events, clock) && RowTells(job, events)
    requires Claimable(job, clock, lease)
    ensures var longer := events + [ClaimEvent(job.deliveryCount + 1, clock, w)];
            WellSpaced(longer, lease) && NoneLater(longer, clock) && RowTells(ClaimRow(job, w, clock), longer)
  {
    var n := |events|;
    var longer := events + [ClaimEvent(job.deliveryCount + 1, clock, w)];
    forall i, j | 0 <= i < j < |longer|
      ensures longer[i].time <= longer[j].time && longer[i].time + lease < longer[j].time
    {
      if j == n {
        assert longer[i] == events[i];
        assert events[n - 1].time + lease < clock;
        assert i < n - 1 ==> events[i].time <= events[n - 1].time;
      } else {
        assert longer[i] == events[i] && longer[j] == events[j];
      }
    }
  }

  lemma LoggedClaimsOf(s: State, keys: set<Key>, w: nat, e: Epoch)
    requires forall k :: k in keys ==> k in s.jobs
    ensures var logged := LogClaims(s, keys, w);
            if e.key in keys && e.number == EpochOf(s, e.key) then
              e in logged
              && logged[e] == ClaimsIn(s, e) + [ClaimEvent(s.jobs[e.key].deliveryCount + 1, s.clock, w)]
            else
              (e in logged <==> e in s.claims) && (e in logged ==> logged[e] == s.claims[e])
  {
  }

  /** A claimable row's epoch takes one more claim. */
  lemma EpochTakesClaim(s: State, w: nat, lease: int, k: Key)
    requires ClaimsLogged(s, lease) && k in s.jobs && Claimable(s.jobs[k], s.clock, lease)
    ensures var longer := ClaimsIn(s, Epoch(k, EpochOf(s, k))) + [ClaimEvent(s.jobs[k].deliveryCount + 1, s.clock, w)];
            && WellSpaced(longer, lease) && NoneLater(longer, s.clock)
            && RowTells(ClaimRow(s.jobs[k], w, s.clock), longer)
  {
    var e := Epoch(k, EpochOf(s, k));
    EmptyOrLogged(s, e, lease);
    assert RowTells(s.jobs[k], ClaimsIn(s, e));
    hide *;
    OneMoreClaim(s.jobs[k], ClaimsIn(s, e), w, s.clock, lease);
  }

  lemma KnownEpochs(s: State, lease: int)
    requires ClaimsLogged(s, lease)
    ensures forall e :: e in s.claims ==> e.key in s.epochs && e.number <= s.epochs[e.key]
    ensures forall k :: k in s.jobs ==> k in s.epochs && EpochOf(s, k) == s.epochs[k]
  {
    hide WellSpaced;
    hide NoneLater;
    hide RowTells;
  }

  /** After a claim each epoch's claims are well spaced, as they were or with one more. */
  lemma ClaimKeepsEpoch(s: State, keys: set<Key>, w: nat, lease: int, e: Epoch)
    requires ClaimsLogged(s, lease)
    requires forall k :: k in keys ==> k in s.jobs && Claimable(s.jobs[k], s.clock, lease)
    requires e in LogClaims(s, keys, w)
    ensures e.key in s.epochs && e.number <= s.epochs[e.key]
    ensures WellSpaced(LogClaims(s, keys, w)[e], lease) && NoneLater(LogClaims(s, keys, w)[e], s.clock)
  {
    hide *;
    LoggedClaimsOf(s, keys, w, e);
    KnownEpochs(s, lease);
    if e.key in keys && e.number == EpochOf(s, e.key) {
      EpochTakesClaim(s, w, lease, e.key);
    } else {
      SpacedBefore(s, lease, e);
    }
  }

  lemma SpacedBefore(s: State, lease: int, e: Epoch)
    requires ClaimsLogged(s, lease) && e in s.claims
    ensures WellSpaced(s.claims[e], lease) && NoneLater(s.claims[e], s.clock)
  {
    hide WellSpaced;
    hide NoneLater;
    hide RowTells;
  }

  /** And each row tells of its current epoch. */
  lemma ClaimKeepsRow(s: State, keys: set<Key>, w: nat, lease: int, k: Key)
    requires ClaimsLogged(s, lease) && k in s.jobs
    requires forall j :: j in keys ==> j in s.jobs && Claimable(s.jobs[j], s.clock, lease)
    ensures var e, logged := Epoch(k, EpochOf(s, k)), LogClaims(s, keys, w);
            RowTells(ClaimRows(s.jobs, keys, w, s.clock)[k], if e in logged then logged[e] else [])
  {
    var e := Epoch(k, EpochOf(s, k));
    LoggedClaimsOf(s, keys, w, e);
    assert RowTells(s.jobs[k], ClaimsIn(s, e));
    hide ClaimsLogged;
    hide LogClaims;
    hide RowTells;
    hide Claimable;
    if k in keys {
      EpochTakesClaim(s, w, lease, k);
    }
  }

  lemma ClaimKeepsLog(s: State, step: Step, env: Env)
    requires step.Claim? && Enabled(s, step, env) && ClaimsLogged(s, env.cfg.leaseSeconds)
    ensures ClaimsLogged(Apply(s, step, env), env.cfg.leaseSeconds)
  {
    hide LogClaims;
    hide WellSpaced;
    hide RowTells;
    hide NoneLater;
    hide Handed;
    hide Claimable;
    hide StoreBlob;
    hide EnqueueStored;
    hide Score;
    hide Commit;
    hide Start;
    var t, keys, w, lease := Apply(s, step, env), Elements(step.keys), step.w, env.cfg.leaseSeconds;
    assert t == TakeClaim(s, w, step.keys);
    assert forall k :: k in keys ==> k in s.jobs && Claimable(s.jobs[k], s.clock, lease);
    hide Apply;
    hide Enabled;
    forall e | e in t.claims
      ensures e.key in t.epochs && e.number <= t.epochs[e.key]
      ensures WellSpaced(t.claims[e], lease) && NoneLater(t.claims[e], t.clock)
    {
      ClaimKeepsEpoch(s, keys, w, lease, e);
    }
    forall k | k in t.jobs ensures RowTells(t.jobs[k], ClaimsIn(t, Epoch(k, EpochOf(t, k)))) {
      ClaimKeepsRow(s, keys, w, lease, k);
    }
  }

  lemma EmptyOrLogged(s: State, e: Epoch, lease: int)
    requires ClaimsLogged(s, lease)
    ensures WellSpaced(ClaimsIn(s, e), lease) && NoneLater(ClaimsIn(s, e), s.clock)
  {
  }

  /** A new epoch starts with no claims. */
  lemma NewEpochKeepsLog(s: State, t: State, key: Key, job: Job, lease: int)
    requires ClaimsLogged(s, lease) && job.deliveryCount == 0 && job.status == Queued
    requires job.claimedBy == None && job.claimedAt == None
    requires t.jobs == s.jobs[key := job] && t.epochs == s.epochs[key := EpochOf(s, key) + 1]
    requires t.claims == s.claims && t.clock == s.clock
    ensures ClaimsLogged(t, lease)
  {
    hide WellSpaced;
    hide NoneLater;
    forall k | k in t.jobs ensures RowTells(t.jobs[k], ClaimsIn(t, Epoch(k, EpochOf(t, k)))) {
      if k == key {
        assert Epoch(k, EpochOf(t, k)) !in s.claims;
      } else {
        assert ClaimsIn(t, Epoch(k, EpochOf(t, k))) == ClaimsIn(s, Epoch(k, EpochOf(s, k)));
      }
    }
  }

  lemma EnqueueKeepsLog(s: State, step: Step, env: Env)
    requires step.IngestEnqueue? && Enabled(s, step, env) && ClaimsLogged(s, env.cfg.leaseSeconds)
    ensures ClaimsLogged(Apply(s, step, env), env.cfg.leaseSeconds)
  {
    EnqueueStep(s, step, env);
    hide Apply;
    hide Enabled;
    hide Identity;
    hide ClaimsLogged;
    hide EpochOf;
    var t, doc := EnqueueStored(s, step.i), s.ingesters[step.i].doc;
    var key := Identity(doc).value;
    if IsNews(s.jobs, key, Sha256(doc)) {
      NewEpochKeepsLog(s, t, key, Job(Sha256(doc), Queued, None, None, 0, s.clock), env.cfg.leaseSeconds);
    } else {
      QuietKeepsLog(s, t, env.cfg.leaseSeconds);
    }
  }

  lemma StatusKeepsLog(s: State, t: State, key: Key, status: JobStatus, lease: int)
    requires ClaimsLogged(s, lease) && (status == Done || status == Dead)
    requires t.jobs == SetStatus(s.jobs, key, status)
    requires t.epochs == s.epochs && t.claims == s.claims && t.clock == s.clock
    ensures ClaimsLogged(t, lease)
  {
    hide WellSpaced;
    hide NoneLater;
    forall k | k in t.jobs ensures RowTells(t.jobs[k], ClaimsIn(t, Epoch(k, EpochOf(t, k)))) {
      assert ClaimsIn(t, Epoch(k, EpochOf(t, k))) == ClaimsIn(s, Epoch(k, EpochOf(s, k)));
      assert RowTells(s.jobs[k], ClaimsIn(s, Epoch(k, EpochOf(s, k))));
      hide ClaimsIn;
    }
    hide RowTells;
    hide SetStatus;
  }

  lemma QuietKeepsLog(s: State, t: State, lease: int)
    requires ClaimsLogged(s, lease)
    requires t.jobs == s.jobs && t.epochs == s.epochs && t.claims == s.claims && t.clock >= s.clock
    ensures ClaimsLogged(t, lease)
  {
    hide WellSpaced;
    hide RowTells;
  }

  lemma ClaimsLoggedStep(s: State, step: Step, env: Env)
    requires Durable(s, env) && ClaimsLogged(s, env.cfg.leaseSeconds) && Enabled(s, step, env)
    ensures ClaimsLogged(Apply(s, step, env), env.cfg.leaseSeconds)
  {
    hide *;
    var t, lease := Apply(s, step, env), env.cfg.leaseSeconds;
    match step
    case Claim(_, _) => ClaimKeepsLog(s, step, env);
    case IngestEnqueue(_) => EnqueueKeepsLog(s, step, env);
    case Close(w) =>
      EnabledWorker(s, step, env);
      CloseStep(s, step, env);
      ClosingFacts(s, w, env);
      StatusKeepsLog(s, t, Head(s, w).job.key, s.workers[w].pc.status, lease);
    case Mark(w) =>
      EnabledWorker(s, step, env);
      MarkStep(s, step, env);
      StatusKeepsLog(s, t, Head(s, w).job.key, Done, lease);
    case _ =>
      QuietStepIs(step);
      QuietStep(s, step, env);
      QuietKeepsLog(s, t, lease);
  }

  lemma EnabledWorker(s: State, step: Step, env: Env)
    requires Enabled(s, step, env) && (step.Close? || step.Mark?)
    ensures Busy(s, step.w) && step.w < |s.workers|
    ensures step.Close? ==> s.workers[step.w].pc.Closing?
  {
  }
}
