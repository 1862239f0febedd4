/** The database as one process sees it: each method is one statement or one transaction on
    the three tables. The clock may have moved on whenever it is read. */
module Store {
  import opened Prelude
  import opened Json
  import opened Result
  import opened Tables

  function ClaimableKeys(jobs: map<Key, Job>, now: int, lease: int): set<Key> {
    set k | k in jobs && Claimable(jobs[k], now, lease)
  }

  /** The rows `ORDER BY enqueued_at LIMIT batch` may select: no claimable row is left out
      while a later one, or too few, are taken. */
  ghost predicate IsSelection(jobs: map<Key, Job>, now: int, lease: int, batch: nat, keys: seq<Key>) {
    var claimable := ClaimableKeys(jobs, now, lease);
    && Distinct(keys)
    && (forall k :: k in keys ==> k in claimable)
    && |keys| == (if batch <= |claimable| then batch else |claimable|)
    && (forall k, j :: k in keys && j in claimable && j !in keys ==> jobs[k].enqueuedAt <= jobs[j].enqueuedAt)
  }

  function HandOut(jobs: map<Key, Job>, keys: seq<Key>): (r: seq<ClaimedJob>)
    requires forall k :: k in keys ==> k in jobs
    ensures |r| == |keys|
    ensures forall i :: 0 <= i < |r| ==> r[i].key == keys[i]
  {
    seq(|keys|, i requires 0 <= i < |keys| => ClaimedJobOf(keys[i], jobs[keys[i]]))
  }

  lemma {:induction false} EarliestExists(jobs: map<Key, Job>, keys: set<Key>) returns (first: Key)
    requires keys != {} && forall k :: k in keys ==> k in jobs
    ensures first in keys && forall k :: k in keys ==> jobs[first].enqueuedAt <= jobs[k].enqueuedAt
    decreases |keys|
  {
    first :| first in keys;
    if keys != {first} {
      var best := EarliestExists(jobs, keys - {first});
      if jobs[best].enqueuedAt <= jobs[first].enqueuedAt {
        first := best;
      }
    }
  }

  datatype CloseOutcome = Committed | BadStatus | NotRoutable

  class Database {
    var clock: int
    var blobs: map<Key, Blob>
    var jobs: map<Key, Job>
    var results: map<Key, ResultRow>

    constructor (clock: int)
      ensures this.clock == clock && blobs == map[] && jobs == map[] && results == map[]
    {
      this.clock := clock;
      blobs, jobs, results := map[], map[], map[];
    }

    method Now() returns (now: int)
      modifies `clock
      ensures now == clock >= old(clock)
    {
      var moment: int := *;
      if moment > clock {
        clock := moment;
      }
      now := clock;
    }

    // ---- blobstore ---------------------------------------------------------------------

    method UpsertBlob(key: Key, hash: Digest, raw: Json)
      modifies `blobs
      ensures blobs == Tables.UpsertBlob(old(blobs), key, hash, raw)
    {
      if key !in blobs || blobs[key].hash != hash {
        blobs := blobs[key := Blob(hash, raw)];
      }
    }

    method GetBlob(key: Key) returns (r: Option<Blob>)
      ensures r == if key in blobs then Some(blobs[key]) else None
    {
      if key in blobs {
        r := Some(blobs[key]);
      } else {
        r := None;
      }
    }

    // ---- queue -------------------------------------------------------------------------

    method Enqueue(key: Key, hash: Digest) returns (isNew: bool)
      modifies `jobs, `clock
      ensures clock >= old(clock)
      ensures isNew <==> IsNews(old(jobs), key, hash)
      ensures jobs == Tables.Enqueue(old(jobs), key, hash, clock)
    {
      var now := Now();
      isNew := key !in jobs || jobs[key].hash != hash;
      if isNew {
        jobs := jobs[key := Job(hash, Queued, None, None, 0, now)];
      }
    }

    /** The claimed rows come back in no particular order. */
    method Claim(worker: nat, batch: nat, lease: int) returns (claimed: seq<ClaimedJob>, ghost keys: seq<Key>)
      modifies `jobs, `clock
      ensures clock >= old(clock)
      ensures IsSelection(old(jobs), clock, lease, batch, keys)
      ensures jobs == ClaimRows(old(jobs), Elements(keys), worker, clock)
      ensures claimed == HandOut(old(jobs), keys)
    {
      var now := Now();
      var table := jobs;
      var claimable := ClaimableKeys(table, now, lease);
      var rest: set<Key>, chosen: seq<Key> := claimable, [];
      while |chosen| < batch && rest != {}
        invariant jobs == table == old(jobs) && clock == now
        invariant rest <= claimable && Distinct(chosen)
        invariant forall k :: k in chosen <==> k in claimable && k !in rest
        invariant |chosen| <= batch && |chosen| + |rest| == |claimable|
        invariant forall k, j :: k in chosen && j in rest ==> table[k].enqueuedAt <= table[j].enqueuedAt
        decreases rest
      {
        ghost var first := EarliestExists(table, rest);
        assert forall j :: j in rest ==> table[first].enqueuedAt <= table[j].enqueuedAt;
        var k :| k in rest && forall j :: j in rest ==> table[k].enqueuedAt <= table[j].enqueuedAt;
        chosen, rest := chosen + [k], rest - {k};
      }
      keys := chosen;
      claimed := HandOut(table, chosen);
      jobs := ClaimRows(table, Elements(chosen), worker, now);
    }

    method MarkDone(key: Key)
      modifies `jobs
      ensures jobs == SetStatus(old(jobs), key, Done)
    {
      if key in jobs {
        jobs := jobs[key := jobs[key].(status := Done)];
      }
    }

    // ---- resultstore -------------------------------------------------------------------

    method GetResult(key: Key) returns (r: Option<ResultRow>)
      ensures r == if key in results then Some(results[key]) else None
    {
      if key in results {
        r := Some(results[key]);
      } else {
        r := None;
      }
    }

    /** Both tables change together, or neither does: not for a status a job is not closed
        with, nor for a row whose key columns the results table refuses. */
    method CloseJobWithResult(row: ResultRow, status: JobStatus) returns (r: CloseOutcome)
      modifies `jobs, `results
      ensures r == BadStatus <==> status != Done && status != Dead
      ensures r == NotRoutable <==> (status == Done || status == Dead) && RowKey(row).None?
      ensures r == Committed ==> results == old(results)[RowKey(row).value := row]
      ensures r == Committed ==> jobs == SetStatus(old(jobs), RowKey(row).value, status)
      ensures r != Committed ==> results == old(results) && jobs == old(jobs)
    {
      if status != Done && status != Dead {
        return BadStatus;
      }
      if RowKey(row).None? {
        return NotRoutable;
      }
      var key := RowKey(row).value;
      results := results[key := row];
      if key in jobs {
        jobs := jobs[key := jobs[key].(status := status)];
      }
      return Committed;
    }
  }
}
