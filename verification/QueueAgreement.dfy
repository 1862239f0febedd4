/** The in-memory queue claims what the ordered SQL claim would, and where it does not. */
module QueueAgreement {
  import opened Prelude
  import opened Json
  import opened Tables
  import opened Store
  import opened FakeQueue

  // ---- The first available keys ------------------------------------------------------------------

  function AvailableKeys(q: Rows, now: int, lease: int): set<Key> {
    set k | k in q.rows && Available(q.rows[k], now, lease)
  }

  lemma {:induction false} AvailableIsDistinct(order: seq<Key>, rows: map<Key, FakeRow>, now: int, lease: int)
    requires Distinct(order)
    ensures Distinct(AvailableIn(order, rows, now, lease))
  {
    if order != [] {
      var n := |order| - 1;
      AvailableIsDistinct(order[..n], rows, now, lease);
      assert order[n] !in order[..n];
    }
  }

  /** The keys stand in the order of the dictionary. */
  ghost predicate InDictionaryOrder(keys: seq<Key>, order: seq<Key>) {
    forall a, b, i, j | 0 <= a < b < |keys| && 0 <= i < |order| && 0 <= j < |order| ::
      order[i] == keys[a] && order[j] == keys[b] ==> i < j
  }

  lemma {:induction false} AvailableInOrder(order: seq<Key>, rows: map<Key, FakeRow>, now: int, lease: int)
    requires Distinct(order)
    ensures InDictionaryOrder(AvailableIn(order, rows, now, lease), order)
  {
    if order != [] {
      var n := |order| - 1;
      var front := order[..n];
      AvailableInOrder(front, rows, now, lease);
      LastInOrder(AvailableIn(front, rows, now, lease), order);
    }
  }

  lemma LastInOrder(keys: seq<Key>, order: seq<Key>)
    requires order != [] && Distinct(order)
    requires InDictionaryOrder(keys, order[..|order| - 1]) && forall k :: k in keys ==> k in order[..|order| - 1]
    ensures InDictionaryOrder(keys, order) && InDictionaryOrder(keys + [order[|order| - 1]], order)
  {
    var n := |order| - 1;
    var front, longer := order[..n], keys + [order[n]];
    forall a, b, i, j | 0 <= a < b < |longer| && 0 <= i < |order| && 0 <= j < |order|
                        && order[i] == longer[a] && order[j] == longer[b]
      ensures i < j
    {
      assert longer[a] == keys[a] && keys[a] in keys;
      assert keys[a] in front;
      assert i < n && front[i] == keys[a];
      if b < |keys| {
        assert longer[b] == keys[b] && keys[b] in keys;
        assert keys[b] in front;
        assert j < n && front[j] == keys[b];
      }
    }
    forall a, b, i, j | 0 <= a < b < |keys| && 0 <= i < |order| && 0 <= j < |order|
                        && order[i] == keys[a] && order[j] == keys[b]
      ensures i < j
    {
      assert longer[a] == keys[a] && longer[b] == keys[b];
    }
  }

  /** A claim hands its rows out in the order of the dictionary. */
  lemma ChosenInOrder(q: Rows, batch: int, now: int, lease: int)
    requires q.Valid()
    ensures InDictionaryOrder(Chosen(q, batch, now, lease), q.order)
  {
    AvailableInOrder(q.order, q.rows, now, lease);
    hide AvailableIn;
  }

  /** A claim takes as many rows as it may and there are, each of them available, and none
      that stands behind an available row it leaves. */
  lemma ChosenAreFirst(q: Rows, batch: int, now: int, lease: int)
    requires q.Valid()
    ensures var keys, available := Chosen(q, batch, now, lease), AvailableKeys(q, now, lease);
            && Distinct(keys) && Elements(keys) <= available
            && |keys| == (if batch <= 0 then 0 else if batch <= |available| then batch else |available|)
            && forall i, j | 0 <= i < |q.order| && 0 <= j < |q.order| ::
                 q.order[i] in keys && q.order[j] in available && q.order[j] !in keys ==> i < j
  {
    var keys, all, available :=
      Chosen(q, batch, now, lease), AvailableIn(q.order, q.rows, now, lease), AvailableKeys(q, now, lease);
    AvailableIsDistinct(q.order, q.rows, now, lease);
    DistinctCardinality(all);
    assert Elements(all) == available;
    forall i, j | 0 <= i < |q.order| && 0 <= j < |q.order| && q.order[i] in keys
                  && q.order[j] in available && q.order[j] !in keys
      ensures i < j
    {
      if j < i {
        var passed := AvailableIn(q.order[..i], q.rows, now, lease);
        AvailablePrefix(q.order, q.rows, now, lease, i);
        assert q.order[..i][j] == q.order[j];
        assert q.order[j] in passed;
        assert q.order[i] !in passed;
        assert keys <= all && passed <= all;
        PrefixesNest(keys, passed, all);
        assert false;
      }
    }
  }

  lemma PrefixesNest<T>(a: seq<T>, b: seq<T>, all: seq<T>)
    requires a <= all && b <= all
    ensures (forall x :: x in a ==> x in b) || (forall x :: x in b ==> x in a)
  {
    if |a| <= |b| {
      assert a == b[..|a|];
    } else {
      assert b == a[..|b|];
    }
  }

  // ---- Agreement -----------------------------------------------------------------------------------

  predicate Alike(job: Job, row: FakeRow) {
    && job.hash == row.hash && job.deliveryCount == row.deliveryCount && job.claimedAt == row.claimedAt
    && match job.status
       case Queued => row.status == Waiting
       case Claimed => row.status == Taken
       case Done => row.status == Finished
       case Dead => false
  }

  /** Among unfinished entries, the place in the dictionary is the place in time. Finished
      ones may stand anywhere: no claim sees them. */
  ghost predicate InOrderOfTime(jobs: map<Key, Job>, order: seq<Key>)
    requires forall k :: k in order ==> k in jobs
  {
    forall i, j :: 0 <= i < j < |order| && !Terminal(jobs[order[i]]) && !Terminal(jobs[order[j]]) ==>
      jobs[order[i]].enqueuedAt < jobs[order[j]].enqueuedAt
  }

  /** The same entries in the same states. */
  ghost predicate SameEntries(jobs: map<Key, Job>, q: Rows) {
    && q.Valid() && jobs.Keys == q.rows.Keys
    && (forall k :: k in jobs ==> Alike(jobs[k], q.rows[k]) && (jobs[k].status == Claimed ==> jobs[k].claimedAt.Some?))
  }

  ghost predicate Agree(jobs: map<Key, Job>, q: Rows) {
    SameEntries(jobs, q) && InOrderOfTime(jobs, q.order)
  }

  lemma ClaimableIsUnfinished(jobs: map<Key, Job>, now: int, lease: int)
    ensures forall k :: k in ClaimableKeys(jobs, now, lease) ==> !Terminal(jobs[k])
  {
  }

  lemma SameClaimable(jobs: map<Key, Job>, q: Rows, now: int, lease: int)
    requires SameEntries(jobs, q)
    ensures ClaimableKeys(jobs, now, lease) == AvailableKeys(q, now, lease)
  {
    assert forall k :: k in jobs ==> Alike(jobs[k], q.rows[k]);
  }

  lemma PositionOf(q: Rows, key: Key) returns (i: nat)
    requires q.Valid() && key in q.rows
    ensures i < |q.order| && q.order[i] == key
  {
    i :| 0 <= i < |q.order| && q.order[i] == key;
  }

  lemma ChosenEarlier(jobs: map<Key, Job>, q: Rows, now: int, lease: int, batch: nat, x: Key, y: Key)
    requires Agree(jobs, q)
    requires y in Chosen(q, batch, now, lease) && x in AvailableKeys(q, now, lease) && x !in Chosen(q, batch, now, lease)
    ensures x in jobs && y in jobs && jobs[y].enqueuedAt < jobs[x].enqueuedAt
  {
    hide Chosen;
    ChosenAreFirst(q, batch, now, lease);
    assert y in Elements(Chosen(q, batch, now, lease));
    SameClaimable(jobs, q, now, lease);
    ClaimableIsUnfinished(jobs, now, lease);
    var i := PositionOf(q, y);
    var j := PositionOf(q, x);
    assert i < j;
  }

  lemma SelectedEarlier(jobs: map<Key, Job>, now: int, lease: int, batch: nat, keys: seq<Key>, x: Key, y: Key)
    requires IsSelection(jobs, now, lease, batch, keys)
    requires x in keys && y in ClaimableKeys(jobs, now, lease) && y !in keys
    ensures x in jobs && y in jobs && jobs[x].enqueuedAt <= jobs[y].enqueuedAt
  {
  }

  /** The two choices cannot each hold a row that the other leaves. */
  lemma NoCrossing(jobs: map<Key, Job>, q: Rows, now: int, lease: int, batch: nat, keys: seq<Key>, x: Key, y: Key)
    requires Agree(jobs, q) && IsSelection(jobs, now, lease, batch, keys)
    requires x in keys && y in Chosen(q, batch, now, lease)
    ensures x in Chosen(q, batch, now, lease) || y in keys
  {
    SameClaimable(jobs, q, now, lease);
    ChosenAreFirst(q, batch, now, lease);
    assert x in ClaimableKeys(jobs, now, lease) && y in Elements(Chosen(q, batch, now, lease));
    hide *;
    if x !in Chosen(q, batch, now, lease) && y !in keys {
      ChosenEarlier(jobs, q, now, lease, batch, x, y);
      SelectedEarlier(jobs, now, lease, batch, keys, x, y);
      assert false;
    }
  }

  /** Whatever rows the ordered SQL claim selects, the in-memory claim chooses the same. */
  lemma SameRowsClaimed(jobs: map<Key, Job>, q: Rows, now: int, lease: int, batch: nat, keys: seq<Key>)
    requires Agree(jobs, q) && IsSelection(jobs, now, lease, batch, keys)
    ensures Elements(keys) == Elements(Chosen(q, batch, now, lease))
  {
    hide Chosen;
    var chosen := Chosen(q, batch, now, lease);
    SameClaimable(jobs, q, now, lease);
    ChosenAreFirst(q, batch, now, lease);
    hide Agree;
    DistinctCardinality(keys);
    DistinctCardinality(chosen);
    forall x, y | x in keys && y in chosen ensures x in chosen || y in keys {
      NoCrossing(jobs, q, now, lease, batch, keys, x, y);
    }
    if Elements(keys) <= Elements(chosen) {
      SubsetCardinality(Elements(keys), Elements(chosen));
    } else {
      SubsetCardinality(Elements(chosen), Elements(keys));
    }
  }

  lemma SameHandedOut(jobs: map<Key, Job>, q: Rows, chosen: seq<Key>, keys: seq<Key>)
    requires Agree(jobs, q)
    requires (forall k :: k in chosen ==> k in q.rows) && (forall k :: k in chosen <==> k in keys)
    ensures Elements(FakeClaimed(q.rows, chosen)) == Elements(HandOut(jobs, keys))
  {
    var faked, handed := FakeClaimed(q.rows, chosen), HandOut(jobs, keys);
    assert forall k :: k in jobs ==> Alike(jobs[k], q.rows[k]);
    hide Agree;
    hide Alike;
    forall c | c in faked ensures c in handed {
      var i :| 0 <= i < |faked| && faked[i] == c;
      assert chosen[i] in keys;
      var j :| 0 <= j < |keys| && keys[j] == chosen[i];
      AlikeHandOut(jobs, q, keys[j]);
      assert handed[j] == c;
    }
    forall c | c in handed ensures c in faked {
      var j :| 0 <= j < |handed| && handed[j] == c;
      assert keys[j] in chosen;
      var i :| 0 <= i < |chosen| && chosen[i] == keys[j];
      AlikeHandOut(jobs, q, keys[j]);
      assert faked[i] == c;
    }
  }

  lemma AlikeHandOut(jobs: map<Key, Job>, q: Rows, key: Key)
    requires key in jobs && key in q.rows && Alike(jobs[key], q.rows[key])
    ensures ClaimedJobOf(key, jobs[key]) == ClaimedJob(key, q.rows[key].hash, q.rows[key].deliveryCount + 1)
  {
  }

  lemma BumpsKeepEntries(jobs: map<Key, Job>, q: Rows, keys: set<Key>, worker: nat, now: int)
    requires SameEntries(jobs, q)
    ensures SameEntries(ClaimRows(jobs, keys, worker, now), Rows(q.order, BumpAll(q.rows, keys, now)))
  {
    forall k | k in jobs ensures Alike(ClaimRows(jobs, keys, worker, now)[k], BumpAll(q.rows, keys, now)[k]) {
      assert Alike(jobs[k], q.rows[k]);
    }
  }

  /** Claiming unfinished rows leaves the order of the unfinished as it is. */
  lemma BumpsKeepOrder(jobs: map<Key, Job>, order: seq<Key>, keys: set<Key>, worker: nat, now: int)
    requires forall k :: k in order ==> k in jobs
    requires InOrderOfTime(jobs, order) && forall k :: k in keys && k in jobs ==> !Terminal(jobs[k])
    ensures InOrderOfTime(ClaimRows(jobs, keys, worker, now), order)
  {
    var after := ClaimRows(jobs, keys, worker, now);
    assert forall k :: k in jobs ==> after[k].enqueuedAt == jobs[k].enqueuedAt && (Terminal(after[k]) <==> Terminal(jobs[k]));
    hide ClaimRows;
    hide Terminal;
  }

  /** What the two claims hand out is the same, job by job, and they go on agreeing. */
  lemma ClaimsAgree(jobs: map<Key, Job>, q: Rows, now: int, lease: int, batch: nat, keys: seq<Key>, worker: nat)
    requires Agree(jobs, q) && IsSelection(jobs, now, lease, batch, keys)
    ensures var chosen := Chosen(q, batch, now, lease);
            && (forall k :: k in keys ==> k in jobs)
            && (forall k :: k in chosen ==> k in q.rows)
            && Elements(FakeClaimed(q.rows, chosen)) == Elements(HandOut(jobs, keys))
            && Agree(ClaimRows(jobs, Elements(keys), worker, now), Rows(q.order, BumpAll(q.rows, Elements(chosen), now)))
  {
    hide Chosen;
    hide HandOut;
    hide FakeClaimed;
    var chosen := Chosen(q, batch, now, lease);
    SameRowsClaimed(jobs, q, now, lease, batch, keys);
    ChosenAreFirst(q, batch, now, lease);
    ClaimableIsUnfinished(jobs, now, lease);
    assert forall k :: k in Elements(keys) ==> k in jobs && !Terminal(jobs[k]);
    hide IsSelection;
    assert forall k :: k in chosen <==> k in Elements(chosen);
    assert forall k :: k in keys <==> k in Elements(keys);
    SameHandedOut(jobs, q, chosen, keys);
    BumpsKeepEntries(jobs, q, Elements(keys), worker, now);
    BumpsKeepOrder(jobs, q.order, Elements(keys), worker, now);
    hide SameEntries;
    hide InOrderOfTime;
  }

  /** Later than every enqueue so far. */
  ghost predicate Latest(jobs: map<Key, Job>, now: int) {
    forall k :: k in jobs ==> jobs[k].enqueuedAt < now
  }

  /** Every entry behind the key in the dictionary is finished. */
  predicate LastUnfinished(jobs: map<Key, Job>, order: seq<Key>, key: Key)
    requires forall k :: k in order ==> k in jobs
  {
    forall i, j :: 0 <= i < j < |order| && order[i] == key ==> Terminal(jobs[order[j]])
  }

  lemma NewEntryAgrees(jobs: map<Key, Job>, q: Rows, key: Key, hash: Digest, now: int)
    requires Agree(jobs, q) && Latest(jobs, now) && key !in jobs
    ensures Agree(jobs[key := Job(hash, Queued, None, None, 0, now)],
                  Rows(q.order + [key], q.rows[key := FakeRow(hash, Waiting, 0, None)]))
  {
    hide Alike;
    assert Alike(Job(hash, Queued, None, None, 0, now), FakeRow(hash, Waiting, 0, None)) by { FreshAlike(hash, now); }
    var longer := q.order + [key];
    assert forall i :: 0 <= i < |q.order| ==> longer[i] == q.order[i] && longer[i] in jobs && longer[i] != key;
  }

  lemma FreshAlike(hash: Digest, now: int)
    ensures Alike(Job(hash, Queued, None, None, 0, now), FakeRow(hash, Waiting, 0, None))
  {
  }

  lemma RequeuedEntryAgrees(jobs: map<Key, Job>, q: Rows, key: Key, hash: Digest, now: int)
    requires Agree(jobs, q) && Latest(jobs, now) && key in jobs && LastUnfinished(jobs, q.order, key)
    ensures Agree(jobs[key := Job(hash, Queued, None, None, 0, now)],
                  Rows(q.order, q.rows[key := FakeRow(hash, Waiting, 0, None)]))
  {
    hide Alike;
    assert Alike(Job(hash, Queued, None, None, 0, now), FakeRow(hash, Waiting, 0, None)) by { FreshAlike(hash, now); }
    var after := jobs[key := Job(hash, Queued, None, None, 0, now)];
    forall i, j | 0 <= i < j < |q.order| && !Terminal(after[q.order[i]]) && !Terminal(after[q.order[j]])
      ensures after[q.order[i]].enqueuedAt < after[q.order[j]].enqueuedAt
    {
      assert q.order[i] in jobs && q.order[j] in jobs && q.order[i] != q.order[j];
    }
  }

  lemma EnqueuesAgree(jobs: map<Key, Job>, q: Rows, key: Key, hash: Digest, now: int)
    requires Agree(jobs, q) && Latest(jobs, now)
    requires key in jobs && jobs[key].hash != hash ==> LastUnfinished(jobs, q.order, key)
    ensures IsNews(jobs, key, hash) <==> !Tracks(q, key, hash)
    ensures Agree(Tables.Enqueue(jobs, key, hash, now), Enqueued(q, key, hash))
  {
    if key !in jobs {
      assert key !in q.rows;
      NewEntryAgrees(jobs, q, key, hash, now);
      hide Agree;
    } else {
      assert Alike(jobs[key], q.rows[key]);
      RequeuedIfNews(jobs, q, key, hash, now);
      hide Agree;
    }
  }

  lemma RequeuedIfNews(jobs: map<Key, Job>, q: Rows, key: Key, hash: Digest, now: int)
    requires Agree(jobs, q) && Latest(jobs, now) && key in jobs
    requires jobs[key].hash != hash ==> LastUnfinished(jobs, q.order, key)
    ensures jobs[key].hash != hash ==>
              Agree(jobs[key := Job(hash, Queued, None, None, 0, now)],
                    Rows(q.order, q.rows[key := FakeRow(hash, Waiting, 0, None)]))
  {
    hide Agree;
    hide Latest;
    if jobs[key].hash != hash {
      RequeuedEntryAgrees(jobs, q, key, hash, now);
    }
  }

  lemma MarksAgree(jobs: map<Key, Job>, q: Rows, key: Key)
    requires Agree(jobs, q)
    ensures Agree(SetStatus(jobs, key, Done), Marked(q, key))
  {
  }

  // ---- Requeueing changed content --------------------------------------------------------------------

  /** Whatever the time and the batch, the two claims take the same rows. */
  ghost predicate ClaimsTheSame(jobs: map<Key, Job>, q: Rows, lease: int) {
    forall now: int, batch: nat, keys: seq<Key> :: IsSelection(jobs, now, lease, batch, keys) ==>
      Elements(keys) == Elements(Chosen(q, batch, now, lease))
  }

  lemma {:induction false} AllStale(jobs: map<Key, Job>, keys: set<Key>, lease: int) returns (now: int)
    requires forall k :: k in keys ==> k in jobs
    requires forall k :: k in keys && jobs[k].status == Claimed ==> jobs[k].claimedAt.Some?
    ensures forall k :: k in keys && !Terminal(jobs[k]) ==> Claimable(jobs[k], now, lease)
    decreases |keys|
  {
    now := 0;
    if keys != {} {
      var k :| k in keys;
      now := AllStale(jobs, keys - {k}, lease);
      if jobs[k].status == Claimed && now <= jobs[k].claimedAt.value + lease {
        now := jobs[k].claimedAt.value + lease + 1;
      }
    }
  }

  lemma {:induction false} Listed(keys: set<Key>) returns (list: seq<Key>)
    ensures Distinct(list) && Elements(list) == keys && |list| == |keys|
    decreases |keys|
  {
    list := [];
    if keys != {} {
      var k :| k in keys;
      list := Listed(keys - {k});
      assert k !in Elements(list);
      assert Elements(list + [k]) == Elements(list) + {k};
      list := list + [k];
    }
  }

  /** The latest of the claimable rows, with an unfinished one behind it: a claim of all but
      one leaves the latest in the table, and another in the dictionary. */
  lemma ClaimsPart(jobs: map<Key, Job>, q: Rows, lease: int, key: Key, i: nat, j: nat)
    returns (now: int, batch: nat, keys: seq<Key>)
    requires SameEntries(jobs, q) && i < j < |q.order| && q.order[i] == key
    requires !Terminal(jobs[key]) && !Terminal(jobs[q.order[j]])
    requires forall k :: k in jobs && k != key ==> jobs[k].enqueuedAt < jobs[key].enqueuedAt
    ensures IsSelection(jobs, now, lease, batch, keys)
    ensures key !in keys && key in Chosen(q, batch, now, lease)
  {
    now := AllStale(jobs, jobs.Keys, lease);
    var claimable := ClaimableKeys(jobs, now, lease);
    assert key in claimable && q.order[j] in claimable;
    assert q.order[j] != key;
    keys := Listed(claimable - {key});
    batch := |keys|;
    assert forall k :: k in keys <==> k in Elements(keys);
    assert IsSelection(jobs, now, lease, batch, keys);
    SameClaimable(jobs, q, now, lease);
    ChosenHoldsKey(q, now, lease, batch, key, i, j);
  }

  /** All available rows but one are chosen: an entry with an available one behind it is. */
  lemma ChosenHoldsKey(q: Rows, now: int, lease: int, batch: nat, key: Key, i: nat, j: nat)
    requires q.Valid() && i < j < |q.order| && q.order[i] == key
    requires key in AvailableKeys(q, now, lease) && q.order[j] in AvailableKeys(q, now, lease)
    requires batch == |AvailableKeys(q, now, lease)| - 1
    ensures key in Chosen(q, batch, now, lease)
  {
    hide Chosen;
    hide AvailableKeys;
    var chosen, available := Chosen(q, batch, now, lease), AvailableKeys(q, now, lease);
    ChosenAreFirst(q, batch, now, lease);
    assert q.order[j] != key;
    if key !in chosen {
      AllButOne(chosen, available, key, q.order[j]);
      assert false;
    }
  }

  lemma AllButOne<T>(chosen: seq<T>, all: set<T>, left: T, x: T)
    requires Distinct(chosen) && Elements(chosen) <= all && |chosen| == |all| - 1
    requires left in all && left !in chosen && x in all && x != left
    ensures x in chosen
  {
    DistinctCardinality(chosen);
    assert left !in Elements(chosen);
    assert |all - {left}| == |all| - 1;
    SubsetCardinality(Elements(chosen), all - {left});
    assert x in Elements(chosen);
  }

  lemma RequeueKeepsEntries(jobs: map<Key, Job>, q: Rows, key: Key, hash: Digest, now: int)
    requires SameEntries(jobs, q) && key in jobs && jobs[key].hash != hash
    ensures var after, requeued := Tables.Enqueue(jobs, key, hash, now), Enqueued(q, key, hash);
            SameEntries(after, requeued) && requeued.order == q.order
            && after == jobs[key := Job(hash, Queued, None, None, 0, now)]
  {
    assert Alike(jobs[key], q.rows[key]);
  }

  /** An entry requeued with changed content keeps its place in the dictionary but goes to the
      end of the SQL queue: from then on the two claims take the same rows, whatever the time
      and the batch, if and only if every entry behind it in the dictionary is finished. */
  lemma RequeueAgreesIff(jobs: map<Key, Job>, q: Rows, key: Key, hash: Digest, now: int, lease: int)
    requires Agree(jobs, q) && Latest(jobs, now) && key in jobs && jobs[key].hash != hash
    ensures ClaimsTheSame(Tables.Enqueue(jobs, key, hash, now), Enqueued(q, key, hash), lease)
            <==> LastUnfinished(jobs, q.order, key)
  {
    hide Chosen;
    hide IsSelection;
    var after, requeued := Tables.Enqueue(jobs, key, hash, now), Enqueued(q, key, hash);
    if LastUnfinished(jobs, q.order, key) {
      EnqueuesAgree(jobs, q, key, hash, now);
      forall at: int, batch: nat, keys: seq<Key> | IsSelection(after, at, lease, batch, keys)
        ensures Elements(keys) == Elements(Chosen(requeued, batch, at, lease))
      {
        SameRowsClaimed(after, requeued, at, lease, batch, keys);
      }
    } else {
      RequeueKeepsEntries(jobs, q, key, hash, now);
      var i, j :| 0 <= i < j < |q.order| && q.order[i] == key && !Terminal(jobs[q.order[j]]);
      assert q.order[j] != key;
      var at, batch, keys := ClaimsPart(after, requeued, lease, key, i, j);
      assert key !in Elements(keys) && key in Elements(Chosen(requeued, batch, at, lease));
    }
  }

  // ---- Whole runs ------------------------------------------------------------------------------------

  /** One call on both queues; for a claim, also the rows the SQL claim selected. */
  datatype Call =
    | Enqueuing(key: Key, hash: Digest, now: int)
    | Claiming(worker: nat, batch: nat, lease: int, now: int, selected: seq<Key>)
    | MarkingDone(key: Key)

  ghost predicate Possible(jobs: map<Key, Job>, call: Call) {
    call.Claiming? ==> IsSelection(jobs, call.now, call.lease, call.batch, call.selected)
  }

  /** Enqueue times are distinct and in order, and an entry is requeued with changed content
      only if every entry behind it in the dictionary is finished. */
  ghost predicate Plain(jobs: map<Key, Job>, q: Rows, call: Call) {
    call.Enqueuing? ==>
      && Latest(jobs, call.now)
      && (call.key in jobs && jobs[call.key].hash != call.hash ==>
            (forall k :: k in q.order ==> k in jobs) && LastUnfinished(jobs, q.order, call.key))
  }

  function OnTable(jobs: map<Key, Job>, call: Call): map<Key, Job> {
    match call
    case Enqueuing(key, hash, now) => Tables.Enqueue(jobs, key, hash, now)
    case Claiming(worker, _, _, now, selected) => ClaimRows(jobs, Elements(selected), worker, now)
    case MarkingDone(key) => SetStatus(jobs, key, Done)
  }

  function InMemory(q: Rows, call: Call): (r: Rows)
    requires q.Valid()
    ensures r.Valid()
  {
    match call
    case Enqueuing(key, hash, _) => Enqueued(q, key, hash)
    case Claiming(_, batch, lease, now, _) =>
      Rows(q.order, BumpAll(q.rows, Elements(Chosen(q, batch, now, lease)), now))
    case MarkingDone(key) => Marked(q, key)
  }

  /** What a caller sees of a call: whether an enqueue was new, the jobs a claim returned. */
  ghost predicate SameAnswer(jobs: map<Key, Job>, q: Rows, call: Call) {
    match call
    case Enqueuing(key, hash, _) => IsNews(jobs, key, hash) <==> !Tracks(q, key, hash)
    case Claiming(_, batch, lease, now, selected) =>
      && (forall k :: k in selected ==> k in jobs)
      && (forall k :: k in Chosen(q, batch, now, lease) ==> k in q.rows)
      && Elements(FakeClaimed(q.rows, Chosen(q, batch, now, lease))) == Elements(HandOut(jobs, selected))
    case MarkingDone(_) => true
  }

  ghost predicate PlainRun(jobs: map<Key, Job>, q: Rows, calls: seq<Call>)
    requires q.Valid()
    decreases |calls|
  {
    calls == []
    || (Possible(jobs, calls[0]) && Plain(jobs, q, calls[0])
        && PlainRun(OnTable(jobs, calls[0]), InMemory(q, calls[0]), calls[1..]))
  }

  ghost predicate SameAnswers(jobs: map<Key, Job>, q: Rows, calls: seq<Call>)
    requires q.Valid()
    decreases |calls|
  {
    calls == []
    || (SameAnswer(jobs, q, calls[0]) && SameAnswers(OnTable(jobs, calls[0]), InMemory(q, calls[0]), calls[1..]))
  }

  lemma StepAgrees(jobs: map<Key, Job>, q: Rows, call: Call)
    requires Agree(jobs, q) && Possible(jobs, call) && Plain(jobs, q, call)
    ensures SameAnswer(jobs, q, call)
    ensures Agree(OnTable(jobs, call), InMemory(q, call))
  {
    hide Agree;
    hide Chosen;
    match call
    case Enqueuing(key, hash, now) => EnqueuesAgree(jobs, q, key, hash, now);
    case Claiming(worker, batch, lease, now, selected) => ClaimsAgree(jobs, q, now, lease, batch, selected, worker);
    case MarkingDone(key) => MarksAgree(jobs, q, key);
  }

  lemma {:induction false} RunAgrees(jobs: map<Key, Job>, q: Rows, calls: seq<Call>)
    requires Agree(jobs, q) && PlainRun(jobs, q, calls)
    ensures SameAnswers(jobs, q, calls)
    decreases |calls|
  {
    if calls != [] {
      StepAgrees(jobs, q, calls[0]);
      RunAgrees(OnTable(jobs, calls[0]), InMemory(q, calls[0]), calls[1..]);
    }
  }

  /** From empty queues, any sequence of enqueues, claims and marks gets the same answers from
      both, as long as enqueue times are distinct and an entry is requeued with changed content
      only when every entry behind it in the dictionary is finished. */
  lemma QueuesAgree(calls: seq<Call>)
    requires PlainRun(map[], Rows([], map[]), calls)
    ensures SameAnswers(map[], Rows([], map[]), calls)
  {
    RunAgrees(map[], Rows([], map[]), calls);
  }

  // ---- Where they part --------------------------------------------------------------------------------

  /** Two jobs; the first is requeued with changed content. */
  function TwoJobs(first: Key, second: Key, hash: Digest, changed: Digest): map<Key, Job> {
    Tables.Enqueue(Tables.Enqueue(Tables.Enqueue(map[], first, hash, 0), second, hash, 1), first, changed, 2)
  }

  function TwoRows(first: Key, second: Key, hash: Digest, changed: Digest): Rows {
    Enqueued(Enqueued(Enqueued(Rows([], map[]), first, hash), second, hash), first, changed)
  }

  lemma TwoRowsAre(first: Key, second: Key, hash: Digest, changed: Digest)
    requires first != second && hash != changed
    ensures TwoRows(first, second, hash, changed)
            == Rows([first, second], map[first := FakeRow(changed, Waiting, 0, None), second := FakeRow(hash, Waiting, 0, None)])
    ensures TwoJobs(first, second, hash, changed)
            == map[first := Job(changed, Queued, None, None, 0, 2), second := Job(hash, Queued, None, None, 0, 1)]
  {
  }

  lemma SecondIsSelected(first: Key, second: Key, hash: Digest, changed: Digest, lease: int)
    requires first != second
    ensures IsSelection(map[first := Job(changed, Queued, None, None, 0, 2), second := Job(hash, Queued, None, None, 0, 1)],
                        3, lease, 1, [second])
  {
    var jobs := map[first := Job(changed, Queued, None, None, 0, 2), second := Job(hash, Queued, None, None, 0, 1)];
    assert ClaimableKeys(jobs, 3, lease) == {first, second};
  }

  /** The table now serves the second job first, the dictionary still the first. */
  lemma ChangedRequeueParts(first: Key, second: Key, hash: Digest, changed: Digest, lease: int)
    requires first != second && hash != changed
    ensures IsSelection(TwoJobs(first, second, hash, changed), 3, lease, 1, [second])
    ensures Chosen(TwoRows(first, second, hash, changed), 1, 3, lease) == [first]
  {
    TwoRowsAre(first, second, hash, changed);
    hide TwoJobs;
    hide TwoRows;
    var jobs, q := TwoJobs(first, second, hash, changed), TwoRows(first, second, hash, changed);
    SecondIsSelected(first, second, hash, changed, lease);
    hide IsSelection;
    assert q.order[..1] == [first] && q.order[..1][..0] == [];
    assert AvailableIn([], q.rows, 3, lease) == [];
    AvailableNext(q.order, q.rows, 3, lease, 0);
    AvailablePrefix(q.order, q.rows, 3, lease, 1);
    assert AvailableIn([first], q.rows, 3, lease) == [first];
  }
}
