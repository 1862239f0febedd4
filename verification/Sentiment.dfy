/** Scoring a list of texts: silence is never sent to the classifier, the rest goes in
    batches, and every answer lands in the slot of its text. */
module Sentiment {
  import opened Prelude
  import opened Config

  const EMPTY_TEXT := "empty_text"

  /** What one text should score, batching aside. */
  function ScoreText(foreign: Foreign, text: string): TurnScore {
    if foreign.hasSignal(text) then foreign.classify(text) else Unscored(EMPTY_TEXT)
  }

  function ScoreAll(foreign: Foreign, texts: seq<string>): (r: seq<TurnScore>)
    ensures |r| == |texts|
  {
    seq(|texts|, i requires 0 <= i < |texts| => ScoreText(foreign, texts[i]))
  }

  /** How `score_texts` ends: a full list, `range()` refusing a zero step, or the
      assertion that every slot was filled. */
  datatype Outcome =
    | Filled(scores: seq<TurnScore>)
    | ZeroStep
    | SlotsLeftEmpty

  /** `batch_size or cfg.batch_size`. */
  function EffectiveBatch(cfg: Config, batchSize: Option<int>): int {
    if batchSize.None? || batchSize.value == 0 then cfg.batchSize else batchSize.value
  }

  /** One forward pass; the model is taken to answer each text on its own. */
  method ScoreBatch(foreign: Foreign, texts: seq<string>) returns (out: seq<TurnScore>)
    ensures |out| == |texts|
    ensures forall i :: 0 <= i < |texts| ==> out[i] == foreign.classify(texts[i])
  {
    out := [];
    for i := 0 to |texts|
      invariant |out| == i
      invariant forall j :: 0 <= j < i ==> out[j] == foreign.classify(texts[j])
    {
      out := out + [foreign.classify(texts[i])];
    }
  }

  /** Indices of the texts worth sending, in order. */
  ghost predicate Selects(foreign: Foreign, texts: seq<string>, upTo: nat, chosen: seq<nat>)
    requires upTo <= |texts|
  {
    && (forall j, k :: 0 <= j < k < |chosen| ==> chosen[j] < chosen[k])
    && (forall j :: 0 <= j < |chosen| ==> chosen[j] < upTo && foreign.hasSignal(texts[chosen[j]]))
    && (forall i :: 0 <= i < upTo && foreign.hasSignal(texts[i]) ==> exists j :: 0 <= j < |chosen| && chosen[j] == i)
  }

  lemma SelectsNext(foreign: Foreign, texts: seq<string>, i: nat, chosen: seq<nat>)
    requires i < |texts| && Selects(foreign, texts, i, chosen)
    ensures foreign.hasSignal(texts[i]) ==> Selects(foreign, texts, i + 1, chosen + [i])
    ensures !foreign.hasSignal(texts[i]) ==> Selects(foreign, texts, i + 1, chosen)
  {
    var longer := chosen + [i];
    assert longer[|chosen|] == i;
    assert forall j :: 0 <= j < |chosen| ==> longer[j] == chosen[j];
  }

  ghost predicate TextsOf(texts: seq<string>, chosen: seq<nat>, chosenTexts: seq<string>) {
    && |chosenTexts| == |chosen|
    && forall j :: 0 <= j < |chosen| ==> chosen[j] < |texts| && chosenTexts[j] == texts[chosen[j]]
  }

  /** Write each score into the slot its index names, and touch no other slot. */
  method Scatter(results: array<Option<TurnScore>>, indices: seq<nat>, scores: seq<TurnScore>)
    requires |indices| == |scores| && Distinct(indices)
    requires forall c :: 0 <= c < |indices| ==> indices[c] < results.Length
    modifies results
    ensures forall c :: 0 <= c < |indices| ==> results[indices[c]] == Some(scores[c])
    ensures forall k :: 0 <= k < results.Length && k !in indices ==> results[k] == old(results[k])
  {
    for c := 0 to |indices|
      invariant forall d :: 0 <= d < c ==> results[indices[d]] == Some(scores[d])
      invariant forall k :: 0 <= k < results.Length && k !in indices ==> results[k] == old(results[k])
    {
      results[indices[c]] := Some(scores[c]);
    }
  }

  /** Where batch after batch has got to: silent slots are filled, and of the others
      exactly those of the first `done` chosen indices. */
  ghost predicate Progress(foreign: Foreign, texts: seq<string>, chosen: seq<nat>, done: int, slots: seq<Option<TurnScore>>)
    requires |slots| == |texts| && forall j :: 0 <= j < |chosen| ==> chosen[j] < |texts|
  {
    && (forall k :: 0 <= k < |texts| && !foreign.hasSignal(texts[k]) ==> slots[k] == Some(ScoreText(foreign, texts[k])))
    && (forall j :: 0 <= j < |chosen| ==>
          slots[chosen[j]] == if j < done then Some(ScoreText(foreign, texts[chosen[j]])) else None)
  }

  lemma SelectedProgress(foreign: Foreign, texts: seq<string>, chosen: seq<nat>, slots: seq<Option<TurnScore>>)
    requires |slots| == |texts| && Selects(foreign, texts, |texts|, chosen)
    requires forall k :: 0 <= k < |texts| ==>
               slots[k] == if !foreign.hasSignal(texts[k]) then Some(Unscored(EMPTY_TEXT)) else None
    ensures Progress(foreign, texts, chosen, 0, slots)
  {
  }

  lemma TextsNext(texts: seq<string>, chosen: seq<nat>, chosenTexts: seq<string>, i: nat)
    requires i < |texts| && TextsOf(texts, chosen, chosenTexts)
    ensures TextsOf(texts, chosen + [i], chosenTexts + [texts[i]])
  {
  }

  /** First loop: silent texts are answered at once, the others listed with their index. */
  method SelectTexts(foreign: Foreign, texts: seq<string>, results: array<Option<TurnScore>>)
    returns (chosen: seq<nat>, chosenTexts: seq<string>)
    requires results.Length == |texts| && forall k :: 0 <= k < |texts| ==> results[k] == None
    modifies results
    ensures Selects(foreign, texts, |texts|, chosen)
    ensures TextsOf(texts, chosen, chosenTexts)
    ensures Progress(foreign, texts, chosen, 0, results[..])
  {
    chosen, chosenTexts := [], [];
    assert Selects(foreign, texts, 0, chosen) && TextsOf(texts, chosen, chosenTexts);
    hide *;
    for i := 0 to |texts|
      invariant Selects(foreign, texts, i, chosen)
      invariant TextsOf(texts, chosen, chosenTexts)
      invariant forall k :: 0 <= k < |texts| ==>
                  results[k] == if k < i && !foreign.hasSignal(texts[k]) then Some(Unscored(EMPTY_TEXT)) else None
    {
      SelectsNext(foreign, texts, i, chosen);
      TextsNext(texts, chosen, chosenTexts, i);
      if foreign.hasSignal(texts[i]) {
        chosen := chosen + [i];
        chosenTexts := chosenTexts + [texts[i]];
      } else {
        results[i] := Some(Unscored(EMPTY_TEXT));
      }
    }
    SelectedProgress(foreign, texts, chosen, results[..]);
  }

  /** Scattering one chunk's scores takes the progress from its start to its end. */
  lemma ChunkProgress(foreign: Foreign, texts: seq<string>, chosen: seq<nat>, chosenTexts: seq<string>,
                      start: nat, end: nat, scores: seq<TurnScore>,
                      before: seq<Option<TurnScore>>, after: seq<Option<TurnScore>>)
    requires |before| == |after| == |texts| && start <= end <= |chosen| && |scores| == end - start
    requires Selects(foreign, texts, |texts|, chosen) && TextsOf(texts, chosen, chosenTexts)
    requires Progress(foreign, texts, chosen, start, before)
    requires forall c :: 0 <= c < |scores| ==> scores[c] == foreign.classify(chosenTexts[start..end][c])
    requires forall c :: 0 <= c < |scores| ==> after[chosen[start..end][c]] == Some(scores[c])
    requires forall k :: 0 <= k < |texts| && k !in chosen[start..end] ==> after[k] == before[k]
    ensures Progress(foreign, texts, chosen, end, after)
  {
    var chunk := chosen[start..end];
    forall k | k in chunk ensures foreign.hasSignal(texts[k]) {
      var c :| 0 <= c < |chunk| && chunk[c] == k;
      assert chosen[start + c] == k;
    }
    forall j | 0 <= j < |chosen|
      ensures after[chosen[j]] == if j < end then Some(ScoreText(foreign, texts[chosen[j]])) else None
    {
      if start <= j < end {
        assert chunk[j - start] == chosen[j] && chosenTexts[start..end][j - start] == chosenTexts[j];
      } else {
        assert chosen[j] !in chunk;
      }
    }
  }

  lemma ChunkIndices(foreign: Foreign, texts: seq<string>, chosen: seq<nat>, start: nat, end: nat)
    requires start <= end <= |chosen| && Selects(foreign, texts, |texts|, chosen)
    ensures Distinct(chosen[start..end])
    ensures forall c :: 0 <= c < end - start ==> chosen[start..end][c] < |texts|
  {
    assert forall c :: 0 <= c < end - start ==> chosen[start..end][c] == chosen[start + c];
  }

  lemma TextsLength(texts: seq<string>, chosen: seq<nat>, chosenTexts: seq<string>)
    requires TextsOf(texts, chosen, chosenTexts)
    ensures |chosenTexts| == |chosen| && forall j :: 0 <= j < |chosen| ==> chosen[j] < |texts|
  {
  }

  /** Second loop: score batch after batch. A negative step makes it run no round. */
  method ScoreBatches(foreign: Foreign, texts: seq<string>, results: array<Option<TurnScore>>,
                      chosen: seq<nat>, chosenTexts: seq<string>, batch: int)
    requires batch != 0 && results.Length == |texts|
    requires Selects(foreign, texts, |texts|, chosen)
    requires TextsOf(texts, chosen, chosenTexts)
    requires Progress(foreign, texts, chosen, 0, results[..])
    modifies results
    ensures Progress(foreign, texts, chosen, if batch > 0 then |chosen| else 0, results[..])
  {
    TextsLength(texts, chosen, chosenTexts);
    hide *;
    var start := 0;
    while batch > 0 && start < |chosenTexts|
      invariant 0 <= start && (batch < 0 ==> start == 0)
      invariant Progress(foreign, texts, chosen, if start <= |chosen| then start else |chosen|, results[..])
      decreases |chosenTexts| - start
    {
      var end := if start + batch < |chosenTexts| then start + batch else |chosenTexts|;
      var idxChunk, textChunk := chosen[start..end], chosenTexts[start..end];
      var scores := ScoreBatch(foreign, textChunk);
      ghost var before := results[..];
      ChunkIndices(foreign, texts, chosen, start, end);
      Scatter(results, idxChunk, scores);
      ChunkProgress(foreign, texts, chosen, chosenTexts, start, end, scores, before, results[..]);
      start := start + batch;
    }
  }

  /** Every slot is filled with its own text's score, whatever the batch size; the call
      fails exactly when the batch size is zero, or negative with something to score. */
  method ScoreTexts(env: Env, texts: seq<string>, batchSize: Option<int>) returns (r: Outcome)
    ensures r.Filled? ==> r.scores == ScoreAll(env.foreign, texts)
    ensures r.Filled? ==> forall i :: 0 <= i < |texts| ==>
              r.scores[i] == if env.foreign.hasSignal(texts[i]) then env.foreign.classify(texts[i]) else Unscored("empty_text")
    ensures r.ZeroStep? <==> (batchSize == None || batchSize == Some(0)) && env.cfg.batchSize == 0
    ensures r.SlotsLeftEmpty? <==>
              && (if batchSize == None || batchSize == Some(0) then env.cfg.batchSize < 0 else batchSize.value < 0)
              && exists i :: 0 <= i < |texts| && env.foreign.hasSignal(texts[i])
  {
    var results := new Option<TurnScore>[|texts|](_ => None);
    var chosen, chosenTexts := SelectTexts(env.foreign, texts, results);
    var batch := EffectiveBatch(env.cfg, batchSize);
    if batch == 0 {
      return ZeroStep;
    }
    ScoreBatches(env.foreign, texts, results, chosen, chosenTexts, batch);
    forall k | 0 <= k < |texts|
      ensures results[k] == if batch < 0 && env.foreign.hasSignal(texts[k]) then None
                            else Some(ScoreText(env.foreign, texts[k]))
    {
      if env.foreign.hasSignal(texts[k]) {
        var j :| 0 <= j < |chosen| && chosen[j] == k;
        assert results[..][k] == results[..][chosen[j]];
      } else {
        assert results[..][k] == Some(ScoreText(env.foreign, texts[k]));
      }
    }
    if exists k :: 0 <= k < results.Length && results[k].None? {
      return SlotsLeftEmpty;
    }
    r := Filled(seq(|texts|, i requires 0 <= i < |texts| && results[i].Some? reads results => results[i].value));
  }
}
