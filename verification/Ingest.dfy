/** A directory of files into blobs and jobs: what is stored, queued, counted and set aside. */
module Ingest {
  import opened Prelude
  import opened Json
  import opened Config
  import opened Tables
  import opened Store
  import opened Protocol

  /** What reading and parsing a file comes to. */
  datatype Contents = Unreadable(error: string) | Readable(raw: Json)

  datatype File = File(name: string, contents: Contents)

  datatype Letter = Letter(filename: string, error: string)

  datatype Tally = Tally(filesSeen: nat, parseErrors: nat, enqueued: nat, alreadyTracked: nat)

  const NOTHING := Tally(0, 0, 0, 0)

  /** The document of a file that can be routed. */
  function Document(file: File): Option<Json> {
    if file.contents.Readable? && Identity(file.contents.raw).Some? then Some(file.contents.raw) else None
  }

  function KeyOf(file: File): Key
    requires Document(file).Some?
  {
    Identity(file.contents.raw).value
  }

  // ---- What ingesting does -----------------------------------------------------------------------

  datatype Intake = Intake(blobs: map<Key, Blob>, jobs: map<Key, Job>, tally: Tally)

  function TakeIn(x: Intake, file: File, now: int): Intake {
    var seen := x.tally.(filesSeen := x.tally.filesSeen + 1);
    match Document(file)
    case None => x.(tally := seen.(parseErrors := seen.parseErrors + 1))
    case Some(doc) =>
      var key, hash := KeyOf(file), Sha256(doc);
      Intake(
        UpsertBlob(x.blobs, key, hash, doc),
        Enqueue(x.jobs, key, hash, now),
        if IsNews(x.jobs, key, hash) then seen.(enqueued := seen.enqueued + 1)
        else seen.(alreadyTracked := seen.alreadyTracked + 1))
  }

  /** File after file, each enqueued at its own time. */
  function TakeInAll(x: Intake, files: seq<File>, times: seq<int>): Intake
    requires |times| == |files|
  {
    if files == [] then x
    else
      var n := |files| - 1;
      TakeIn(TakeInAll(x, files[..n], times[..n]), files[n], times[n])
  }

  /** The dead letter of a file that cannot be routed. */
  function LetterOf(file: File): seq<Letter> {
    match file.contents
    case Unreadable(error) => [Letter(file.name, error)]
    case Readable(raw) =>
      if Identity(raw).Some? then [] else [Letter(file.name, "missing or invalid tenant_id/conversation_id")]
  }

  function Letters(files: seq<File>): seq<Letter> {
    if files == [] then []
    else
      var n := |files| - 1;
      Letters(files[..n]) + LetterOf(files[n])
  }

  lemma OneFileMore(x: Intake, files: seq<File>, times: seq<int>, i: nat, now: int)
    requires i < |files| && |times| == i
    ensures TakeInAll(x, files[..i + 1], times + [now]) == TakeIn(TakeInAll(x, files[..i], times), files[i], now)
    ensures Letters(files[..i + 1]) == Letters(files[..i]) + LetterOf(files[i])
  {
    assert files[..i + 1][..i] == files[..i];
    assert (times + [now])[..i] == times;
  }

  lemma SetAside(x: Intake, file: File, now: int)
    requires file.contents.Unreadable? || Identity(file.contents.raw).None?
    ensures TakeIn(x, file, now)
            == x.(tally := x.tally.(filesSeen := x.tally.filesSeen + 1, parseErrors := x.tally.parseErrors + 1))
    ensures LetterOf(file) == [Letter(file.name, if file.contents.Unreadable? then file.contents.error
                                                 else "missing or invalid tenant_id/conversation_id")]
  {
  }

  lemma StoredAndQueued(x: Intake, file: File, now: int)
    requires file.contents.Readable? && Identity(file.contents.raw).Some?
    ensures var raw := file.contents.raw;
            var key, seen := Identity(raw).value, x.tally.(filesSeen := x.tally.filesSeen + 1);
            TakeIn(x, file, now)
            == Intake(UpsertBlob(x.blobs, key, Sha256(raw), raw), Enqueue(x.jobs, key, Sha256(raw), now),
                      if IsNews(x.jobs, key, Sha256(raw)) then seen.(enqueued := seen.enqueued + 1)
                      else seen.(alreadyTracked := seen.alreadyTracked + 1))
    ensures LetterOf(file) == []
  {
  }

  // ---- The loop ----------------------------------------------------------------------------------

  class IngestStats {
    var filesSeen: nat
    var parseErrors: nat
    var enqueued: nat
    var alreadyTracked: nat

    function Value(): (t: Tally)
      reads this
      ensures t == Tally(filesSeen, parseErrors, enqueued, alreadyTracked)
    {
      Tally(filesSeen, parseErrors, enqueued, alreadyTracked)
    }

    constructor ()
      ensures Value() == NOTHING
    {
      filesSeen, parseErrors, enqueued, alreadyTracked := 0, 0, 0, 0;
    }
  }

  class DeadLetters {
    var letters: seq<Letter>

    method Record(filename: string, error: string)
      modifies this
      ensures letters == old(letters) + [Letter(filename, error)]
    {
      letters := letters + [Letter(filename, error)];
    }
  }

  method CountError(stats: IngestStats, recorder: DeadLetters?, filename: string, error: string)
    modifies stats`parseErrors, recorder
    ensures stats.parseErrors == old(stats.parseErrors) + 1
    ensures recorder != null ==> recorder.letters == old(recorder.letters) + [Letter(filename, error)]
  {
    stats.parseErrors := stats.parseErrors + 1;
    if recorder != null {
      recorder.Record(filename, error);
    }
  }

  /** One round of the loop over files. */
  method IngestFile(file: File, db: Database, recorder: DeadLetters?, stats: IngestStats)
    modifies db`blobs, db`jobs, db`clock, recorder, stats
    ensures db.clock >= old(db.clock)
    ensures Intake(db.blobs, db.jobs, stats.Value())
            == TakeIn(Intake(old(db.blobs), old(db.jobs), old(stats.Value())), file, db.clock)
    ensures recorder != null ==> recorder.letters == old(recorder.letters) + LetterOf(file)
  {
    hide *;
    ghost var x := Intake(db.blobs, db.jobs, stats.Value());
    stats.filesSeen := stats.filesSeen + 1;
    match file.contents {
      case Unreadable(error) =>
        SetAside(x, file, db.clock);
        CountError(stats, recorder, file.name, error);
      case Readable(raw) =>
        if Identity(raw).None? {
          SetAside(x, file, db.clock);
          CountError(stats, recorder, file.name, "missing or invalid tenant_id/conversation_id");
        } else {
          var key := Identity(raw).value;
          db.UpsertBlob(key, Sha256(raw), raw);
          var newly := db.Enqueue(key, Sha256(raw));
          if newly {
            stats.enqueued := stats.enqueued + 1;
          } else {
            stats.alreadyTracked := stats.alreadyTracked + 1;
          }
          StoredAndQueued(x, file, db.clock);
        }
    }
  }

  method IngestDirectory(files: seq<File>, db: Database, recorder: DeadLetters?)
    returns (stats: IngestStats, ghost times: seq<int>)
    modifies db`blobs, db`jobs, db`clock, recorder
    ensures fresh(stats) && db.clock >= old(db.clock)
    ensures |times| == |files|
    ensures Intake(db.blobs, db.jobs, stats.Value())
            == TakeInAll(Intake(old(db.blobs), old(db.jobs), NOTHING), files, times)
    ensures forall i :: 0 <= i < |times| ==> old(db.clock) <= times[i] <= db.clock
    ensures recorder != null ==> recorder.letters == old(recorder.letters) + Letters(files)
  {
    hide *;
    ghost var start := Intake(db.blobs, db.jobs, NOTHING);
    stats := new IngestStats();
    times := [];
    var i := 0;
    Nothing(start, files);
    while i < |files|
      invariant 0 <= i <= |files| && |times| == i
      invariant fresh(stats) && db.clock >= old(db.clock)
      invariant Intake(db.blobs, db.jobs, stats.Value()) == TakeInAll(start, files[..i], times)
      invariant forall j :: 0 <= j < i ==> old(db.clock) <= times[j] <= db.clock
      invariant recorder != null ==> recorder.letters == old(recorder.letters) + Letters(files[..i])
    {
      IngestFile(files[i], db, recorder, stats);
      OneFileMore(start, files, times, i, db.clock);
      times := times + [db.clock];
      i := i + 1;
    }
    assert files[..i] == files;
  }

  lemma Nothing(x: Intake, files: seq<File>)
    ensures TakeInAll(x, files[..0], []) == x && Letters(files[..0]) == []
  {
  }

  // ---- The counts ----------------------------------------------------------------------------------

  /** Every file is counted once as seen and once as what became of it, and each parse error
      leaves one dead letter. */
  lemma {:induction false} EveryFileIsCounted(x: Intake, files: seq<File>, times: seq<int>)
    requires |times| == |files|
    ensures var before, after := x.tally, TakeInAll(x, files, times).tally;
            && after.filesSeen == before.filesSeen + |files|
            && after.enqueued + after.alreadyTracked + after.parseErrors
               == before.enqueued + before.alreadyTracked + before.parseErrors + |files|
            && after.parseErrors == before.parseErrors + |Letters(files)|
  {
    if files != [] {
      var n := |files| - 1;
      EveryFileIsCounted(x, files[..n], times[..n]);
    }
  }

  /** The dead letters name exactly the files that could not be routed, each with its reason. */
  lemma {:induction false} LettersNameTheLost(files: seq<File>, letter: Letter)
    ensures letter in Letters(files) <==>
              exists i :: 0 <= i < |files| && files[i].name == letter.filename
                && match files[i].contents
                   case Unreadable(error) => letter.error == error
                   case Readable(raw) =>
                     Identity(raw) == None && letter.error == "missing or invalid tenant_id/conversation_id"
  {
    if files != [] {
      var n := |files| - 1;
      LettersNameTheLost(files[..n], letter);
      assert forall i :: 0 <= i < n ==> files[..n][i] == files[i];
      hide Identity;
      if letter in LetterOf(files[n]) {
        assert files[n].name == letter.filename;
      }
    }
  }

  // ---- Last writer wins ------------------------------------------------------------------------------

  /** The document of the last file for the key. */
  function LastOf(files: seq<File>, key: Key): Option<Json> {
    if files == [] then None
    else
      var n := |files| - 1;
      if Document(files[n]).Some? && KeyOf(files[n]) == key then Document(files[n]) else LastOf(files[..n], key)
  }

  /** Each blob's hash is its document's. */
  ghost predicate Sound(blobs: map<Key, Blob>) {
    forall k :: k in blobs ==> blobs[k].hash == Sha256(blobs[k].raw)
  }

  /** After any directory, a key some file names holds, as blob and as job, the content of the
      last such file; any other key is as it was. */
  lemma {:induction false} LastWriterWins(x: Intake, files: seq<File>, times: seq<int>, key: Key)
    requires |times| == |files| && Sound(x.blobs)
    ensures var y := TakeInAll(x, files, times);
            && Sound(y.blobs)
            && match LastOf(files, key)
               case Some(doc) =>
                 && key in y.blobs && y.blobs[key] == Blob(Sha256(doc), doc)
                 && key in y.jobs && y.jobs[key].hash == Sha256(doc)
               case None =>
                 && (key in y.blobs <==> key in x.blobs) && (key in x.blobs ==> y.blobs[key] == x.blobs[key])
                 && (key in y.jobs <==> key in x.jobs) && (key in x.jobs ==> y.jobs[key] == x.jobs[key])
  {
    if files != [] {
      var n := |files| - 1;
      LastWriterWins(x, files[..n], times[..n], key);
    }
  }

  // ---- One content for each key ----------------------------------------------------------------------

  /** Files for the same key hold the same document. */
  ghost predicate OneContentEach(files: seq<File>) {
    forall i, j | 0 <= i < |files| && 0 <= j < |files| ::
      Document(files[i]).Some? && Document(files[j]).Some? && KeyOf(files[i]) == KeyOf(files[j]) ==>
        Document(files[i]) == Document(files[j])
  }

  function KeysIn(files: seq<File>): (r: set<Key>)
    ensures forall k :: k in r <==> exists i :: 0 <= i < |files| && Document(files[i]).Some? && KeyOf(files[i]) == k
  {
    set i | 0 <= i < |files| && Document(files[i]).Some? :: KeyOf(files[i])
  }

  lemma {:induction false} LastIsOne(files: seq<File>, i: nat)
    requires i < |files| && Document(files[i]).Some?
    ensures LastOf(files, KeyOf(files[i])).Some?
    ensures OneContentEach(files) ==> LastOf(files, KeyOf(files[i])) == Document(files[i])
  {
    var n := |files| - 1;
    if i < n {
      LastIsOne(files[..n], i);
    }
  }

  lemma KeysInFront(files: seq<File>)
    requires files != []
    ensures var front, last := files[..|files| - 1], files[|files| - 1];
            KeysIn(files) == KeysIn(front) + if Document(last).Some? then {KeyOf(last)} else {}
  {
    var front, last := files[..|files| - 1], files[|files| - 1];
    forall k | k in KeysIn(files) ensures k in KeysIn(front) || (Document(last).Some? && k == KeyOf(last)) {
      var i :| 0 <= i < |files| && Document(files[i]).Some? && KeyOf(files[i]) == k;
      if i < |front| {
        assert front[i] == files[i];
      }
    }
    forall k | k in KeysIn(front) ensures k in KeysIn(files) {
      var i :| 0 <= i < |front| && Document(front[i]).Some? && KeyOf(front[i]) == k;
      assert files[i] == front[i];
    }
  }

  /** The last file is news to the files before it exactly when its key is new. */
  lemma NewsIsNewKey(files: seq<File>, times: seq<int>)
    requires files != [] && |times| == |files| - 1 && OneContentEach(files)
    requires Document(files[|files| - 1]).Some?
    ensures var front, last := files[..|files| - 1], files[|files| - 1];
            var y := TakeInAll(Intake(map[], map[], NOTHING), front, times);
            IsNews(y.jobs, KeyOf(last), Sha256(last.contents.raw)) <==> KeyOf(last) !in KeysIn(front)
  {
    var n := |files| - 1;
    var front, last := files[..n], files[n];
    LastWriterWins(Intake(map[], map[], NOTHING), front, times, KeyOf(last));
    hide TakeInAll;
    hide TakeIn;
    if KeyOf(last) in KeysIn(front) {
      var i :| 0 <= i < n && Document(front[i]).Some? && KeyOf(front[i]) == KeyOf(last);
      LastIsOne(front, i);
      assert front[i] == files[i];
      assert Document(front[i]) == Document(last);
      assert OneContentEach(front) by { OneContentInFront(files); }
    } else {
      NoLast(front, KeyOf(last));
    }
  }

  lemma OneContentInFront(files: seq<File>)
    requires files != [] && OneContentEach(files)
    ensures OneContentEach(files[..|files| - 1])
  {
    assert forall i :: 0 <= i < |files| - 1 ==> files[..|files| - 1][i] == files[i];
  }

  lemma {:induction false} NoLast(files: seq<File>, key: Key)
    requires key !in KeysIn(files)
    ensures LastOf(files, key).None?
  {
    if files != [] {
      KeysInFront(files);
      NoLast(files[..|files| - 1], key);
    }
  }

  lemma KeysAfterOne(x: Intake, file: File, now: int)
    ensures var y, keys := TakeIn(x, file, now), if Document(file).Some? then {KeyOf(file)} else {};
            && y.jobs.Keys == x.jobs.Keys + keys && y.blobs.Keys == x.blobs.Keys + keys
            && y.tally.enqueued == x.tally.enqueued
               + if Document(file).Some? && IsNews(x.jobs, KeyOf(file), Sha256(file.contents.raw)) then 1 else 0
  {
  }

  /** Into empty stores, with one content for each key, as many jobs are enqueued as there are
      distinct keys, and the keys of blobs and jobs are exactly those. */
  lemma {:induction false} DistinctKeysAreEnqueued(files: seq<File>, times: seq<int>)
    requires |times| == |files| && OneContentEach(files)
    ensures var y := TakeInAll(Intake(map[], map[], NOTHING), files, times);
            y.tally.enqueued == |KeysIn(files)| && y.jobs.Keys == KeysIn(files) && y.blobs.Keys == KeysIn(files)
  {
    if files != [] {
      var n := |files| - 1;
      var y := TakeInAll(Intake(map[], map[], NOTHING), files[..n], times[..n]);
      assert TakeInAll(Intake(map[], map[], NOTHING), files, times) == TakeIn(y, files[n], times[n]);
      hide *;
      OneContentInFront(files);
      DistinctKeysAreEnqueued(files[..n], times[..n]);
      KeysInFront(files);
      if Document(files[n]).Some? {
        NewsIsNewKey(files, times[..n]);
      }
      KeysAfterOne(y, files[n], times[n]);
    }
  }

  // ---- Ingesting again -------------------------------------------------------------------------------

  ghost predicate AllTracked(jobs: map<Key, Job>, files: seq<File>) {
    forall i :: 0 <= i < |files| && Document(files[i]).Some? ==> !IsNews(jobs, KeyOf(files[i]), Sha256(files[i].contents.raw))
  }

  /** Nothing is enqueued exactly when every file's content is the one tracked already, and
      then no job changes. */
  lemma {:induction false} NothingIsEnqueued(x: Intake, files: seq<File>, times: seq<int>)
    requires |times| == |files|
    ensures var y := TakeInAll(x, files, times);
            && y.tally.enqueued >= x.tally.enqueued
            && (y.tally.enqueued == x.tally.enqueued <==> AllTracked(x.jobs, files))
            && (AllTracked(x.jobs, files) ==> y.jobs == x.jobs)
  {
    if files != [] {
      var n := |files| - 1;
      NothingIsEnqueued(x, files[..n], times[..n]);
      assert AllTracked(x.jobs, files) ==> AllTracked(x.jobs, files[..n]);
      assert forall i :: 0 <= i < n ==> files[..n][i] == files[i];
    }
  }

  /** The same jobs, whatever has happened to them since. */
  ghost predicate SameTracking(jobs: map<Key, Job>, later: map<Key, Job>) {
    jobs.Keys == later.Keys && forall k :: k in jobs ==> later[k].hash == jobs[k].hash
  }

  /** Ingesting a directory a second time enqueues nothing, whatever states its jobs have
      reached meanwhile, exactly when its files hold one content for each key. */
  lemma ReingestIsQuietIff(x: Intake, files: seq<File>, times: seq<int>, later: Intake, again: seq<int>)
    requires |times| == |files| == |again| && Sound(x.blobs)
    requires SameTracking(TakeInAll(x, files, times).jobs, later.jobs)
    ensures TakeInAll(later, files, again).tally.enqueued == later.tally.enqueued <==> OneContentEach(files)
  {
    var y := TakeInAll(x, files, times);
    NothingIsEnqueued(later, files, again);
    forall i: nat | i < |files| && Document(files[i]).Some?
      ensures IsNews(later.jobs, KeyOf(files[i]), Sha256(files[i].contents.raw))
              <==> LastOf(files, KeyOf(files[i])) != Document(files[i])
    {
      LastIsOne(files, i);
      LastWriterWins(x, files, times, KeyOf(files[i]));
    }
    if OneContentEach(files) {
      forall i: nat | i < |files| && Document(files[i]).Some?
        ensures !IsNews(later.jobs, KeyOf(files[i]), Sha256(files[i].contents.raw))
      {
        LastIsOne(files, i);
      }
    }
  }

  ghost predicate AllStored(blobs: map<Key, Blob>, files: seq<File>) {
    forall i :: 0 <= i < |files| && Document(files[i]).Some? ==>
      KeyOf(files[i]) in blobs && blobs[KeyOf(files[i])].hash == Sha256(files[i].contents.raw)
  }

  lemma {:induction false} NothingIsStored(x: Intake, files: seq<File>, times: seq<int>)
    requires |times| == |files| && AllStored(x.blobs, files)
    ensures TakeInAll(x, files, times).blobs == x.blobs
  {
    if files != [] {
      var n := |files| - 1;
      assert forall i :: 0 <= i < n ==> files[..n][i] == files[i];
      NothingIsStored(x, files[..n], times[..n]);
    }
  }

  lemma IngestedAreStored(x: Intake, files: seq<File>, times: seq<int>)
    requires |times| == |files| && Sound(x.blobs) && OneContentEach(files)
    ensures AllStored(TakeInAll(x, files, times).blobs, files)
  {
    hide TakeInAll;
    hide Identity;
    hide OneContentEach;
    forall i: nat | i < |files| && Document(files[i]).Some?
      ensures var blobs := TakeInAll(x, files, times).blobs;
              KeyOf(files[i]) in blobs && blobs[KeyOf(files[i])].hash == Sha256(files[i].contents.raw)
    {
      LastIsOne(files, i);
      LastWriterWins(x, files, times, KeyOf(files[i]));
    }
  }

  /** In that case the second time changes no blob and no job at all. */
  lemma ReingestChangesNothing(x: Intake, files: seq<File>, times: seq<int>, later: Intake, again: seq<int>)
    requires |times| == |files| == |again| && Sound(x.blobs) && OneContentEach(files)
    requires SameTracking(TakeInAll(x, files, times).jobs, later.jobs)
    requires later.blobs == TakeInAll(x, files, times).blobs
    ensures TakeInAll(later, files, again).blobs == later.blobs
    ensures TakeInAll(later, files, again).jobs == later.jobs
  {
    hide *;
    ReingestIsQuietIff(x, files, times, later, again);
    NothingIsEnqueued(later, files, again);
    IngestedAreStored(x, files, times);
    NothingIsStored(later, files, again);
  }

  // ---- One file is two protocol steps ------------------------------------------------------------------

  /** A routable file does to the tables what an idle ingester's two steps do. */
  lemma FileIsTwoSteps(s: State, i: nat, file: File, env: Env, tally: Tally)
    requires i < |s.ingesters| && s.ingesters[i] == Idle && Document(file).Some?
    ensures Enabled(s, IngestBlob(i, file.contents.raw), env)
    ensures var t := Apply(s, IngestBlob(i, file.contents.raw), env);
            && Enabled(t, IngestEnqueue(i), env)
            && var u := Apply(t, IngestEnqueue(i), env);
            && var y := TakeIn(Intake(s.blobs, s.jobs, tally), file, s.clock);
            u.blobs == y.blobs && u.jobs == y.jobs && u.results == s.results && u.ingesters == s.ingesters
  {
  }
}
