/** The in-memory queue the tests run on, and how far it agrees with the real one. */
module FakeQueue {
  import opened Prelude
  import opened Json
  import opened Tables

  datatype FakeStatus = Waiting | Taken | Finished      // 'queued', 'claimed', 'done'

  datatype FakeRow = FakeRow(hash: Digest, status: FakeStatus, deliveryCount: nat, claimedAt: Option<int>)

  /** A dictionary: its keys in the order they were first inserted, and a row for each. */
  datatype Rows = Rows(order: seq<Key>, rows: map<Key, FakeRow>) {
    ghost predicate Valid() {
      && Distinct(order)
      && forall k :: k in order <==> k in rows
    }
  }

  // ---- What the operations do ----------------------------------------------------------------

  predicate Tracks(q: Rows, key: Key, hash: Digest) {
    key in q.rows && q.rows[key].hash == hash
  }

  /** A changed entry keeps its place in the dictionary; a new one goes to the end. */
  function Enqueued(q: Rows, key: Key, hash: Digest): (r: Rows)
    requires q.Valid()
    ensures r.Valid()
  {
    if Tracks(q, key, hash) then q
    else
      Rows(if key in q.rows then q.order else q.order + [key],
           q.rows[key := FakeRow(hash, Waiting, 0, None)])
  }

  predicate Stale(row: FakeRow, now: int, lease: int) {
    row.status == Taken && row.claimedAt.Some? && now - row.claimedAt.value > lease
  }

  predicate Available(row: FakeRow, now: int, lease: int) {
    row.status == Waiting || Stale(row, now, lease)
  }

  /** The available keys among `keys`, in order. */
  function AvailableIn(keys: seq<Key>, rows: map<Key, FakeRow>, now: int, lease: int): (r: seq<Key>)
    ensures forall k :: k in r <==> k in keys && k in rows && Available(rows[k], now, lease)
  {
    if keys == [] then []
    else
      var n := |keys| - 1;
      AvailableIn(keys[..n], rows, now, lease)
      + if keys[n] in rows && Available(rows[keys[n]], now, lease) then [keys[n]] else []
  }

  /** The first `batch` of them, or all if there are fewer. */
  function Chosen(q: Rows, batch: int, now: int, lease: int): seq<Key> {
    var available := AvailableIn(q.order, q.rows, now, lease);
    if batch <= 0 then [] else if batch <= |available| then available[..batch] else available
  }

  function Bumped(row: FakeRow, now: int): FakeRow {
    row.(status := Taken, claimedAt := Some(now), deliveryCount := row.deliveryCount + 1)
  }

  /** Each chosen row is bumped once; no other row and no place changes. */
  function BumpAll(rows: map<Key, FakeRow>, keys: set<Key>, now: int): map<Key, FakeRow> {
    map k | k in rows :: if k in keys then Bumped(rows[k], now) else rows[k]
  }

  function FakeClaimed(rows: map<Key, FakeRow>, keys: seq<Key>): (r: seq<ClaimedJob>)
    requires forall k :: k in keys ==> k in rows
    ensures |r| == |keys|
  {
    seq(|keys|, i requires 0 <= i < |keys| => ClaimedJob(keys[i], rows[keys[i]].hash, rows[keys[i]].deliveryCount + 1))
  }

  function Marked(q: Rows, key: Key): (r: Rows)
    requires q.Valid()
    ensures r.Valid()
  {
    if key in q.rows then q.(rows := q.rows[key := q.rows[key].(status := Finished)]) else q
  }

  // ---- Facts about the pass ---------------------------------------------------------------------

  lemma AvailableNext(order: seq<Key>, rows: map<Key, FakeRow>, now: int, lease: int, i: nat)
    requires i < |order|
    ensures AvailableIn(order[..i + 1], rows, now, lease)
            == AvailableIn(order[..i], rows, now, lease)
               + if order[i] in rows && Available(rows[order[i]], now, lease) then [order[i]] else []
  {
    assert order[..i + 1][..i] == order[..i];
  }

  lemma BumpNext(rows: map<Key, FakeRow>, keys: seq<Key>, key: Key, now: int)
    requires key in rows && key !in keys
    ensures BumpAll(rows, Elements(keys), now)[key] == rows[key]
    ensures BumpAll(rows, Elements(keys), now)[key := Bumped(rows[key], now)]
            == BumpAll(rows, Elements(keys + [key]), now)
  {
  }

  /** What is available in a prefix comes first among what is available. */
  lemma {:induction false} AvailablePrefix(order: seq<Key>, rows: map<Key, FakeRow>, now: int, lease: int, i: nat)
    requires i <= |order|
    ensures AvailableIn(order[..i], rows, now, lease) <= AvailableIn(order, rows, now, lease)
    decreases |order|
  {
    if i == |order| {
      assert order[..i] == order;
    } else {
      var n := |order| - 1;
      AvailablePrefix(order[..n], rows, now, lease, i);
      assert order[..n][..i] == order[..i];
    }
  }

  /** The pass has looked at the first `i` keys: what it claimed, and the rows as they are now. */
  ghost predicate Passing(q: Rows, rows: map<Key, FakeRow>, claimed: seq<ClaimedJob>, i: int, batch: int,
                          now: int, lease: int)
  {
    && 0 <= i <= |q.order|
    && var keys := AvailableIn(q.order[..i], q.rows, now, lease);
    && (|keys| <= batch || keys == [])
    && claimed == FakeClaimed(q.rows, keys)
    && rows == BumpAll(q.rows, Elements(keys), now)
  }

  lemma PassStart(q: Rows, batch: int, now: int, lease: int)
    ensures Passing(q, q.rows, [], 0, batch, now, lease)
  {
  }

  lemma PassStep(q: Rows, rows: map<Key, FakeRow>, claimed: seq<ClaimedJob>, i: nat, batch: int, now: int, lease: int)
    requires q.Valid() && i < |q.order| && |claimed| < batch
    requires Passing(q, rows, claimed, i, batch, now, lease)
    ensures var key := q.order[i];
            && key in rows
            && var row := rows[key];
            if row.status == Waiting || (row.status == Taken && row.claimedAt.Some? && now - row.claimedAt.value > lease) then
              Passing(q, rows[key := row.(status := Taken, claimedAt := Some(now), deliveryCount := row.deliveryCount + 1)],
                      claimed + [ClaimedJob(key, row.hash, row.deliveryCount + 1)], i + 1, batch, now, lease)
            else
              Passing(q, rows, claimed, i + 1, batch, now, lease)
  {
    hide AvailableIn;
    var key, keys := q.order[i], AvailableIn(q.order[..i], q.rows, now, lease);
    AvailableNext(q.order, q.rows, now, lease, i);
    BumpNext(q.rows, keys, key, now);
    hide BumpAll;
    if Available(q.rows[key], now, lease) {
      assert FakeClaimed(q.rows, keys + [key])
             == claimed + [ClaimedJob(key, q.rows[key].hash, q.rows[key].deliveryCount + 1)];
    }
  }

  lemma PassEnd(q: Rows, rows: map<Key, FakeRow>, claimed: seq<ClaimedJob>, i: nat, batch: int, now: int, lease: int)
    requires Passing(q, rows, claimed, i, batch, now, lease)
    requires i == |q.order| || |claimed| >= batch
    ensures var keys := Chosen(q, batch, now, lease);
            && (forall k :: k in keys ==> k in q.rows)
            && claimed == FakeClaimed(q.rows, keys)
            && rows == BumpAll(q.rows, Elements(keys), now)
  {
    hide BumpAll;
    AvailablePrefix(q.order, q.rows, now, lease, i);
    assert q.order[..|q.order|] == q.order;
    assert AvailableIn(q.order[..i], q.rows, now, lease) == Chosen(q, batch, now, lease);
  }

  // ---- The class -------------------------------------------------------------------------------

  class FakeQueue {
    var order: seq<Key>
    var rows: map<Key, FakeRow>

    ghost function Contents(): (q: Rows)
      reads this
      ensures q.order == order && q.rows == rows
    {
      Rows(order, rows)
    }

    constructor ()
      ensures Contents() == Rows([], map[]) && Contents().Valid()
    {
      order, rows := [], map[];
    }

    method Enqueue(key: Key, hash: Digest) returns (isNew: bool)
      requires Contents().Valid()
      modifies this
      ensures isNew <==> !Tracks(old(Contents()), key, hash)
      ensures Contents() == Enqueued(old(Contents()), key, hash)
    {
      if key in rows && rows[key].hash == hash {
        return false;
      }
      if key !in rows {
        order := order + [key];
      }
      rows := rows[key := FakeRow(hash, Waiting, 0, None)];
      return true;
    }

    /** One pass over the dictionary, stopping once the batch is full. */
    method Claim(batch: int, lease: int, now: int) returns (claimed: seq<ClaimedJob>)
      requires Contents().Valid()
      modifies this
      ensures var keys := Chosen(old(Contents()), batch, now, lease);
              && (forall k :: k in keys ==> k in old(rows))
              && claimed == FakeClaimed(old(rows), keys)
              && Contents() == Rows(old(order), BumpAll(old(rows), Elements(keys), now))
    {
      hide *;
      claimed := [];
      ghost var q := Contents();
      PassStart(q, batch, now, lease);
      var i := 0;
      while i < |order|
        invariant 0 <= i <= |order| && order == q.order && q == old(Contents()) && q.Valid()
        invariant Passing(q, rows, claimed, i, batch, now, lease)
      {
        if |claimed| >= batch {
          break;
        }
        PassStep(q, rows, claimed, i, batch, now, lease);
        var key := order[i];
        var row := rows[key];
        var stale := row.status == Taken && row.claimedAt.Some? && now - row.claimedAt.value > lease;
        if row.status == Waiting || stale {
          rows := rows[key := row.(status := Taken, claimedAt := Some(now), deliveryCount := row.deliveryCount + 1)];
          claimed := claimed + [ClaimedJob(key, row.hash, row.deliveryCount + 1)];
        }
        i := i + 1;
      }
      PassEnd(q, rows, claimed, i, batch, now, lease);
    }

    method MarkDone(key: Key)
      requires Contents().Valid()
      modifies this
      ensures Contents() == Marked(old(Contents()), key)
    {
      if key in rows {
        rows := rows[key := rows[key].(status := Finished)];
      }
    }
  }
}
