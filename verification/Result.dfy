/** One raw document to one complete results row. */
module Result {
  import opened Prelude
  import opened Json
  import opened Config
  import opened Metrics
  import opened MetricTheory
  import opened Schema
  import Sentiment

  datatype Status = Complete | Partial | Rejected      // 'scored', 'partial', 'rejected'

  datatype TurnRow = TurnRow(index: nat, seqNo: Option<int>, role: Role, score: TurnScore)

  datatype RowError = RowError(reason: string, detail: Detail)

  /** The part of a row that the document and the configuration decide. */
  datatype Body = Body(
    status: Status,
    overall: Option<Overall>,
    trajectory: Option<Trajectory>,
    perTurn: seq<TurnRow>,
    dropped: seq<DroppedTurn>,
    error: Option<RowError>)

  datatype Provenance = Provenance(modelName: string, modelRevision: string, scoredAt: int)

  /** The tunables echoed into every row. */
  datatype Params = Params(
    recencyDecay: Decay,
    labelThreshold: PositiveReal,
    trajectoryDivisor: PositiveReal,
    meaningfulMinTurns: int,
    emptyTextPolicy: string)

  /** Identity columns hold whatever the document holds; a rejected document may hold
      no usable identity, and a document that is no object has no hash. */
  datatype ResultRow = ResultRow(
    tenant: Json,
    conversation: Json,
    hash: Option<Digest>,
    schemaVersion: string,
    provenance: Provenance,
    params: Params,
    body: Body)

  function MetricParams(cfg: Config): Params {
    Params(cfg.recencyDecay, cfg.labelThreshold, cfg.trajectoryDivisor, cfg.meaningfulMinTurns, cfg.emptyTextPolicy)
  }

  function ProvenanceOf(cfg: Config, now: int): Provenance {
    Provenance(cfg.modelName, cfg.modelRevision, now)
  }

  // ---- Scoring in one order, reporting in another -----------------------------

  function Texts(turns: seq<ParsedTurn>): (r: seq<string>)
    ensures |r| == |turns|
  {
    seq(|turns|, i requires 0 <= i < |turns| => turns[i].text)
  }

  /** `dict(zip(indices, scores))`. */
  function ScoreByIndex(turns: seq<ParsedTurn>, scores: seq<TurnScore>): (r: map<nat, TurnScore>)
    requires |turns| == |scores|
    ensures forall t :: t in turns ==> t.index in r
  {
    if turns == [] then map[]
    else
      var n := |turns| - 1;
      ScoreByIndex(turns[..n], scores[..n])[turns[n].index := scores[n]]
  }

  /** The turns that were scored, in the order of the array. */
  function PerTurn(turns: seq<ParsedTurn>, byIndex: map<nat, TurnScore>): seq<TurnRow> {
    if turns == [] then []
    else
      var t := turns[0];
      (if t.index in byIndex then [TurnRow(t.index, t.seqNo, t.role, byIndex[t.index])] else [])
      + PerTurn(turns[1..], byIndex)
  }

  function Lookup(turns: seq<ParsedTurn>, byIndex: map<nat, TurnScore>): (r: seq<TurnScore>)
    requires forall t :: t in turns ==> t.index in byIndex
    ensures |r| == |turns|
  {
    seq(|turns|, i requires 0 <= i < |turns| => byIndex[turns[i].index])
  }

  function ToScore(turns: seq<ParsedTurn>, cfg: Config): seq<ParsedTurn> {
    CustomerTurns(turns) + if cfg.scoreAgentTurns then TurnsOf(turns, Agent) else []
  }

  function AssembleFrom(c: ParsedConversation, scores: seq<TurnScore>, env: Env): Body
    requires |scores| == |ToScore(c.turns, env.cfg)|
  {
    var customer, toScore := CustomerTurns(c.turns), ToScore(c.turns, env.cfg);
    var byIndex := ScoreByIndex(toScore, scores);
    assert forall t :: t in customer ==> t in toScore;
    var customerScores := Lookup(customer, byIndex);
    var overall := OverallSentiment(customerScores, env.cfg);
    var trajectory := SentimentTrajectory(customerScores, env.cfg, env.foreign.tanh);
    var status :=
      if overall.None? then Rejected else if c.dropped != [] then Partial else Complete;
    var error :=
      if overall.None? then
        Some(RowError(if customer == [] then "no_customer_turns" else "no_customer_signal", NoneScored(|customer|)))
      else None;
    Body(status, overall, trajectory, PerTurn(c.turns, byIndex), c.dropped, error)
  }

  function AssembleBody(c: ParsedConversation, env: Env): Body {
    AssembleFrom(c, Sentiment.ScoreAll(env.foreign, Texts(ToScore(c.turns, env.cfg))), env)
  }

  function ScoreBody(raw: Json, env: Env): Body {
    match ParseConversation(raw)
    case Rejection(reason, detail) => Body(Rejected, None, None, [], [], Some(RowError(reason, detail)))
    case Parsed(c) => AssembleBody(c, env)
  }

  /** `score_conversation`: only the provenance knows what time it is. */
  function ScoreConversation(raw: Json, env: Env, now: int): ResultRow {
    ResultRow(
      Get(raw, "tenant_id"),
      Get(raw, "conversation_id"),
      if raw.Obj? then Some(Sha256(raw)) else None,
      env.cfg.schemaVersion,
      ProvenanceOf(env.cfg, now),
      MetricParams(env.cfg),
      ScoreBody(raw, env))
  }

  /** The scorer fails on the document: its batch size is zero and there is a turn to score,
      or negative and there is one with signal. */
  predicate ScoringRaises(raw: Json, env: Env) {
    var parse := ParseConversation(raw);
    && parse.Parsed?
    && var toScore := ToScore(parse.conversation.turns, env.cfg);
    && toScore != []
    && (env.cfg.batchSize == 0
        || (env.cfg.batchSize < 0 && exists t :: t in toScore && env.foreign.hasSignal(t.text)))
  }

  /** `score_conversation` with the loops it runs: parsing, then scoring in batches. It gives
      the row, unless the scorer fails. */
  method ScoreDocument(raw: Json, env: Env, now: int) returns (row: Option<ResultRow>)
    ensures row == if ScoringRaises(raw, env) then None else Some(ScoreConversation(raw, env, now))
  {
    hide AssembleFrom;
    var body;
    var parse := ParseDocument(raw);
    match parse {
      case Rejection(reason, detail) =>
        body := Body(Rejected, None, None, [], [], Some(RowError(reason, detail)));
      case Parsed(c) =>
        var toScore, scores := ToScore(c.turns, env.cfg), [];
        if toScore != [] {
          var texts := Texts(toScore);
          var outcome := Sentiment.ScoreTexts(env, texts, None);
          SignalInTexts(toScore, env.foreign);
          if !outcome.Filled? {
            return None;
          }
          scores := outcome.scores;
        }
        body := AssembleFrom(c, scores, env);
    }
    row := Some(ResultRow(
                  Get(raw, "tenant_id"),
                  Get(raw, "conversation_id"),
                  if raw.Obj? then Some(Sha256(raw)) else None,
                  env.cfg.schemaVersion,
                  ProvenanceOf(env.cfg, now),
                  MetricParams(env.cfg),
                  body));
  }

  lemma SignalInTexts(turns: seq<ParsedTurn>, foreign: Foreign)
    ensures (exists t :: t in turns && foreign.hasSignal(t.text))
            <==> exists i :: 0 <= i < |Texts(turns)| && foreign.hasSignal(Texts(turns)[i])
  {
    if t :| t in turns && foreign.hasSignal(t.text) {
      var i :| 0 <= i < |turns| && turns[i] == t;
      assert foreign.hasSignal(Texts(turns)[i]);
    }
    if i :| 0 <= i < |Texts(turns)| && foreign.hasSignal(Texts(turns)[i]) {
      assert turns[i] in turns;
    }
  }

  /** The scorer is sent the customer turns first and the agent turns, if any, after them. */
  lemma CustomersFirst(turns: seq<ParsedTurn>, cfg: Config)
    ensures var toScore := ToScore(turns, cfg);
            && (forall i, j :: 0 <= i < j < |toScore| && toScore[j].role == Customer ==> toScore[i].role == Customer)
            && (forall t :: t in toScore <==>
                  t in turns && (t.role == Customer || (t.role == Agent && cfg.scoreAgentTurns)))
  {
    var customers, toScore := CustomerTurns(turns), ToScore(turns, cfg);
    assert forall i :: 0 <= i < |customers| ==> toScore[i] == customers[i] && customers[i] in customers;
    forall j | |customers| <= j < |toScore| ensures toScore[j].role == Agent {
      assert toScore[j] in TurnsOf(turns, Agent);
    }
  }

  // ---- The plain reading ------------------------------------------------------

  predicate Reported(t: ParsedTurn, cfg: Config) {
    t.role == Customer || (t.role == Agent && cfg.scoreAgentTurns)
  }

  /** A turn listed with the score of its own text. */
  function OwnRow(t: ParsedTurn, env: Env): TurnRow {
    TurnRow(t.index, t.seqNo, t.role, Sentiment.ScoreText(env.foreign, t.text))
  }

  /** What `per_turn` should be: every reported turn, in order, with its own score. */
  function PlainPerTurn(turns: seq<ParsedTurn>, env: Env): seq<TurnRow> {
    if turns == [] then []
    else
      (if Reported(turns[0], env.cfg) then [OwnRow(turns[0], env)] else []) + PlainPerTurn(turns[1..], env)
  }

  /** What the metrics should see: the customer turns, in order, each with its own score. */
  function PlainCustomerScores(turns: seq<ParsedTurn>, foreign: Foreign): seq<TurnScore> {
    Sentiment.ScoreAll(foreign, Texts(CustomerTurns(turns)))
  }

  /** No two different turns share an index, as parsing guarantees. */
  ghost predicate IndexIsIdentity(turns: seq<ParsedTurn>) {
    forall t, u :: t in turns && u in turns && t.index == u.index ==> t == u
  }

  lemma KeptIndexIsIdentity(items: seq<Json>)
    ensures IndexIsIdentity(KeptTurns(items))
  {
    ListMembers(items);
  }

  lemma {:induction false} ScoreByIndexFinds(turns: seq<ParsedTurn>, foreign: Foreign, i: nat) returns (k: nat)
    requires i in ScoreByIndex(turns, Sentiment.ScoreAll(foreign, Texts(turns)))
    ensures k < |turns| && turns[k].index == i
    ensures ScoreByIndex(turns, Sentiment.ScoreAll(foreign, Texts(turns)))[i] == Sentiment.ScoreText(foreign, turns[k].text)
  {
    var n := |turns| - 1;
    var scores := Sentiment.ScoreAll(foreign, Texts(turns));
    assert scores[..n] == Sentiment.ScoreAll(foreign, Texts(turns[..n]));
    if i == turns[n].index {
      k := n;
    } else {
      k := ScoreByIndexFinds(turns[..n], foreign, i);
    }
  }

  /** The index-keyed detour returns to each turn its own score, and to no other turn any. */
  lemma DetourIsFaithful(turns: seq<ParsedTurn>, env: Env)
    requires IndexIsIdentity(turns)
    ensures var toScore := ToScore(turns, env.cfg);
            var byIndex := ScoreByIndex(toScore, Sentiment.ScoreAll(env.foreign, Texts(toScore)));
            forall t :: t in turns ==>
              && (t.index in byIndex <==> Reported(t, env.cfg))
              && (t.index in byIndex ==> byIndex[t.index] == Sentiment.ScoreText(env.foreign, t.text))
  {
    var toScore := ToScore(turns, env.cfg);
    var byIndex := ScoreByIndex(toScore, Sentiment.ScoreAll(env.foreign, Texts(toScore)));
    forall t | t in turns
      ensures t.index in byIndex <==> Reported(t, env.cfg)
      ensures t.index in byIndex ==> byIndex[t.index] == Sentiment.ScoreText(env.foreign, t.text)
    {
      if t.index in byIndex {
        var k := ScoreByIndexFinds(toScore, env.foreign, t.index);
        assert toScore[k] in toScore;
        assert toScore[k] in turns;
      } else {
        assert t !in toScore;
      }
    }
  }

  lemma {:induction false} PerTurnIsPlain(turns: seq<ParsedTurn>, byIndex: map<nat, TurnScore>, env: Env)
    requires forall t :: t in turns ==>
               && (t.index in byIndex <==> Reported(t, env.cfg))
               && (t.index in byIndex ==> byIndex[t.index] == Sentiment.ScoreText(env.foreign, t.text))
    ensures PerTurn(turns, byIndex) == PlainPerTurn(turns, env)
  {
    if turns != [] {
      assert turns[0] in turns;
      PerTurnIsPlain(turns[1..], byIndex, env);
    }
  }

  /** Although customers are scored before agents, every reported turn comes out in
      array order with its own score, and the metrics see exactly the customer turns. */
  lemma AlignmentThroughPermutation(c: ParsedConversation, env: Env)
    requires IndexIsIdentity(c.turns)
    ensures AssembleBody(c, env).perTurn == PlainPerTurn(c.turns, env)
    ensures var scores := PlainCustomerScores(c.turns, env.foreign);
            && AssembleBody(c, env).overall == OverallSentiment(scores, env.cfg)
            && AssembleBody(c, env).trajectory == SentimentTrajectory(scores, env.cfg, env.foreign.tanh)
  {
    hide OverallSentiment;
    hide SentimentTrajectory;
    var toScore := ToScore(c.turns, env.cfg);
    var byIndex := ScoreByIndex(toScore, Sentiment.ScoreAll(env.foreign, Texts(toScore)));
    DetourIsFaithful(c.turns, env);
    PerTurnIsPlain(c.turns, byIndex, env);
    var customer := CustomerTurns(c.turns);
    assert forall t :: t in customer ==> t in toScore;
    forall i | 0 <= i < |customer|
      ensures Lookup(customer, byIndex)[i] == PlainCustomerScores(c.turns, env.foreign)[i]
    {
      assert customer[i] in customer;
    }
    assert Lookup(customer, byIndex) == PlainCustomerScores(c.turns, env.foreign);
  }

  lemma {:induction false} PlainPerTurnMembers(turns: seq<ParsedTurn>, env: Env)
    ensures forall row :: row in PlainPerTurn(turns, env) <==>
              exists t :: t in turns && Reported(t, env.cfg) && row == OwnRow(t, env)
  {
    hide OwnRow;
    hide Reported;
    if turns != [] {
      var first, rest := turns[0], turns[1..];
      PlainPerTurnMembers(rest, env);
      forall row | row in PlainPerTurn(turns, env)
        ensures exists t :: t in turns && Reported(t, env.cfg) && row == OwnRow(t, env)
      {
        if row in PlainPerTurn(rest, env) {
          var t :| t in rest && Reported(t, env.cfg) && row == OwnRow(t, env);
          assert t in turns;
        } else {
          assert first in turns;
        }
      }
      forall t | t in turns && Reported(t, env.cfg) ensures OwnRow(t, env) in PlainPerTurn(turns, env) {
        assert t == first || t in rest;
      }
    }
  }

  ghost predicate Rising(rows: seq<TurnRow>) {
    forall i, j :: 0 <= i < j < |rows| ==> rows[i].index < rows[j].index
  }

  lemma RisingPrepend(row: TurnRow, rows: seq<TurnRow>)
    requires Rising(rows) && forall r :: r in rows ==> row.index < r.index
    ensures Rising([row] + rows)
  {
    var all := [row] + rows;
    forall i, j | 0 <= i < j < |all| ensures all[i].index < all[j].index {
      assert all[j] == rows[j - 1];
    }
  }

  lemma {:induction false} PlainPerTurnRises(turns: seq<ParsedTurn>, env: Env)
    requires forall i, j :: 0 <= i < j < |turns| ==> turns[i].index < turns[j].index
    ensures Rising(PlainPerTurn(turns, env))
  {
    if turns != [] {
      var rest := turns[1..];
      PlainPerTurnRises(rest, env);
      PlainPerTurnMembers(rest, env);
      if Reported(turns[0], env.cfg) {
        RisingPrepend(OwnRow(turns[0], env), PlainPerTurn(rest, env));
      } else {
        assert PlainPerTurn(turns, env) == PlainPerTurn(rest, env);
      }
    }
  }

  /** For a document as ingested: `per_turn` rises strictly in index and holds exactly
      the reported turns, each with the score of its own text. */
  lemma PerTurnOfDocument(raw: Json, env: Env)
    requires ParseConversation(raw).Parsed?
    ensures var rows, turns := ScoreBody(raw, env).perTurn, ParseConversation(raw).conversation.turns;
            && Rising(rows)
            && (forall row :: row in rows <==>
                  exists t :: t in turns && (t.role == Customer || (t.role == Agent && env.cfg.scoreAgentTurns))
                              && row == TurnRow(t.index, t.seqNo, t.role, Sentiment.ScoreText(env.foreign, t.text)))
  {
    hide AssembleBody;
    var c := ParseConversation(raw).conversation;
    var items := raw.fields["turns"].items;
    TurnsArePartitioned(items);
    KeptIndexIsIdentity(items);
    AlignmentThroughPermutation(c, env);
    PlainPerTurnMembers(c.turns, env);
    PlainPerTurnRises(c.turns, env);
  }

  // ---- Dropped turns ------------------------------------------------------------

  /** The row's own dropped turns: in array order, and exactly the positions of the turns array
      that parse to a drop, each with its reason. */
  lemma DroppedOfDocument(raw: Json, env: Env)
    requires ParseConversation(raw).Parsed?
    ensures raw.Obj? && "turns" in raw.fields && raw.fields["turns"].Arr?
    ensures var body, items := ScoreBody(raw, env), raw.fields["turns"].items;
            && (forall i, j :: 0 <= i < j < |body.dropped| ==> body.dropped[i].index < body.dropped[j].index)
            && (forall d :: d in body.dropped <==> d.index < |items| && ParseTurn(d.index, items[d.index]) == Dropped(d))
            && (body.status == Partial <==> body.overall.Some? && body.dropped != [])
            && (body.status == Complete <==> body.overall.Some? && body.dropped == [])
  {
    hide ParseTurn;
    hide OverallSentiment;
    hide SentimentTrajectory;
    hide PerTurn;
    hide ScoreByIndex;
    TurnsArePartitioned(raw.fields["turns"].items);
    hide KeptTurns;
    hide DroppedTurns;
  }

  // ---- The turns that are measured ----------------------------------------------

  lemma {:induction false} RisingIsUnique(a: seq<ParsedTurn>, b: seq<ParsedTurn>)
    requires forall i, j :: 0 <= i < j < |a| ==> a[i].index < a[j].index
    requires forall i, j :: 0 <= i < j < |b| ==> b[i].index < b[j].index
    requires forall t :: t in a <==> t in b
    ensures a == b
  {
    assert b != [] ==> b[|b| - 1] in b;
    if a != [] {
      var m, n := |a| - 1, |b| - 1;
      assert a[m] in a;
      var i :| 0 <= i < |b| && b[i] == a[m];
      var j :| 0 <= j < |a| && a[j] == b[n];
      assert a[m] == b[n];
      forall t ensures t in a[..m] <==> t in b[..n] {
        assert t in a[..m] <==> t in a && t != a[m] by { FrontOf(a, t); }
        assert t in b[..n] <==> t in b && t != b[n] by { FrontOf(b, t); }
      }
      RisingIsUnique(a[..m], b[..n]);
    }
  }

  lemma FrontOf(a: seq<ParsedTurn>, t: ParsedTurn)
    requires a != [] && forall i, j :: 0 <= i < j < |a| ==> a[i].index < a[j].index
    ensures t in a[..|a| - 1] <==> t in a && t != a[|a| - 1]
  {
    if t in a && t != a[|a| - 1] {
      var i :| 0 <= i < |a| && a[i] == t;
      assert a[..|a| - 1][i] == t;
    }
  }

  ghost predicate IndexRises(turns: seq<ParsedTurn>) {
    forall i, j :: 0 <= i < j < |turns| ==> turns[i].index < turns[j].index
  }

  lemma FirstRises(t: ParsedTurn, rest: seq<ParsedTurn>)
    requires IndexRises(rest) && forall u :: u in rest ==> t.index < u.index
    ensures IndexRises([t] + rest)
  {
    var all := [t] + rest;
    forall i, j | 0 <= i < j < |all| ensures all[i].index < all[j].index {
      assert all[j] == rest[j - 1] && all[j] in rest;
    }
  }

  lemma RestRises(turns: seq<ParsedTurn>)
    requires turns != [] && IndexRises(turns)
    ensures IndexRises(turns[1..]) && forall u :: u in turns[1..] ==> turns[0].index < u.index
  {
  }

  lemma {:induction false} TurnsOfRise(turns: seq<ParsedTurn>, role: Role)
    requires IndexRises(turns)
    ensures IndexRises(TurnsOf(turns, role))
  {
    hide IndexRises;
    if turns == [] {
      assert IndexRises(TurnsOf(turns, role)) by { NoneRise(); }
    } else {
      RestRises(turns);
      TurnsOfRise(turns[1..], role);
      FirstRises(turns[0], TurnsOf(turns[1..], role));
    }
  }

  lemma NoneRise()
    ensures IndexRises([])
  {
  }

  /** Both metrics are those of the document's customer turns in array order, each with the
      score of its own text. */
  lemma MetricsOfDocument(raw: Json, env: Env, customers: seq<ParsedTurn>)
    requires ParseConversation(raw).Parsed?
    requires forall t :: t in customers <==> t in ParseConversation(raw).conversation.turns && t.role == Customer
    requires forall i, j :: 0 <= i < j < |customers| ==> customers[i].index < customers[j].index
    ensures var body := ScoreBody(raw, env);
            var scores := seq(|customers|, i requires 0 <= i < |customers| => Sentiment.ScoreText(env.foreign, customers[i].text));
            && body.overall == OverallSentiment(scores, env.cfg)
            && body.trajectory == SentimentTrajectory(scores, env.cfg, env.foreign.tanh)
  {
    hide AssembleBody;
    hide OverallSentiment;
    hide SentimentTrajectory;
    var c := ParseConversation(raw).conversation;
    KeptTurnsRise(raw);
    KeptIndexIsIdentity(raw.fields["turns"].items);
    AlignmentThroughPermutation(c, env);
    hide ParseConversation;
    hide KeptTurns;
    hide TurnsOf;
    TurnsOfRise(c.turns, Customer);
    assert CustomerTurns(c.turns) == TurnsOf(c.turns, Customer);
    RisingIsUnique(customers, CustomerTurns(c.turns));
    var scores := seq(|customers|, i requires 0 <= i < |customers| => Sentiment.ScoreText(env.foreign, customers[i].text));
    assert PlainCustomerScores(c.turns, env.foreign) == scores;
  }

  lemma KeptTurnsRise(raw: Json)
    requires ParseConversation(raw).Parsed?
    ensures raw.Obj? && "turns" in raw.fields && raw.fields["turns"].Arr?
    ensures var turns := ParseConversation(raw).conversation.turns;
            && turns == KeptTurns(raw.fields["turns"].items)
            && forall i, j :: 0 <= i < j < |turns| ==> turns[i].index < turns[j].index
  {
    hide KeptTurns;
    hide DroppedTurns;
    hide ParseTurn;
    TurnsArePartitioned(raw.fields["turns"].items);
  }

  /** The rest of the row: the document's identity and hash, and what scored it. */
  lemma RowEchoes(raw: Json, env: Env, now: int)
    requires raw.Obj?
    ensures var row, cfg := ScoreConversation(raw, env, now), env.cfg;
            && ("tenant_id" in raw.fields ==> row.tenant == raw.fields["tenant_id"])
            && ("conversation_id" in raw.fields ==> row.conversation == raw.fields["conversation_id"])
            && row.hash == Some(Sha256(raw)) && row.schemaVersion == cfg.schemaVersion
            && row.provenance.modelName == cfg.modelName && row.provenance.modelRevision == cfg.modelRevision
            && row.provenance.scoredAt == now
            && row.params.recencyDecay == cfg.recencyDecay && row.params.labelThreshold == cfg.labelThreshold
            && row.params.trajectoryDivisor == cfg.trajectoryDivisor
            && row.params.meaningfulMinTurns == cfg.meaningfulMinTurns
            && row.params.emptyTextPolicy == cfg.emptyTextPolicy
  {
    hide ScoreBody;
  }

  // ---- Status -----------------------------------------------------------------

  /** The classifier scores whatever it is given. */
  ghost predicate AlwaysScores(foreign: Foreign) {
    forall text :: foreign.classify(text).Scored?
  }

  ghost predicate CustomerSignal(turns: seq<ParsedTurn>, foreign: Foreign) {
    exists t :: t in turns && t.role == Customer && foreign.hasSignal(t.text)
  }

  lemma SignalIsMeasured(turns: seq<ParsedTurn>, env: Env)
    requires AlwaysScores(env.foreign)
    ensures OverallSentiment(PlainCustomerScores(turns, env.foreign), env.cfg).Some? <==> CustomerSignal(turns, env.foreign)
  {
    hide OverallSentiment;
    var customer, scores := CustomerTurns(turns), PlainCustomerScores(turns, env.foreign);
    NullMeansUnmeasurable(scores, env.cfg, env.foreign.tanh);
    if CustomerSignal(turns, env.foreign) {
      var t :| t in turns && t.role == Customer && env.foreign.hasSignal(t.text);
      assert t in customer;
      var i :| 0 <= i < |customer| && customer[i] == t;
      assert scores[i] == Sentiment.ScoreText(env.foreign, t.text);
      assert scores[i] in scores;
    } else {
      forall s | s in scores ensures s.Unscored? {
        var i :| 0 <= i < |scores| && scores[i] == s;
        assert customer[i] in customer;
        assert s == Sentiment.ScoreText(env.foreign, customer[i].text);
      }
    }
  }

  /** When each status is reached, and which reason a rejection carries. */
  lemma StatusOfDocument(raw: Json, env: Env)
    requires AlwaysScores(env.foreign)
    ensures var body, parse := ScoreBody(raw, env), ParseConversation(raw);
            var signal := parse.Parsed? && CustomerSignal(parse.conversation.turns, env.foreign);
            && (body.status == Rejected <==> !signal)
            && (body.status == Partial <==> signal && parse.conversation.dropped != [])
            && (body.error.Some? <==> body.status == Rejected)
            && (body.overall.Some? <==> signal)
            && (parse.Parsed? && !signal ==>
                  && (body.error.value.reason == "no_customer_turns" <==>
                      forall t :: t in parse.conversation.turns ==> t.role != Customer)
                  && (body.error.value.reason == "no_customer_signal" <==>
                      exists t :: t in parse.conversation.turns && t.role == Customer)
                  && body.error.value.detail == NoneScored(|CustomerTurns(parse.conversation.turns)|))
            && (parse.Rejection? ==>
                  body == Body(Rejected, None, None, [], [], Some(RowError(parse.reason, parse.detail))))
  {
    hide OverallSentiment;
    hide SentimentTrajectory;
    if ParseConversation(raw).Parsed? {
      var c := ParseConversation(raw).conversation;
      KeptIndexIsIdentity(raw.fields["turns"].items);
      AlignmentThroughPermutation(c, env);
      SignalIsMeasured(c.turns, env);
      assert CustomerTurns(c.turns) == [] <==> forall t :: t in c.turns ==> t.role != Customer by {
        var customer := CustomerTurns(c.turns);
        if customer != [] {
          assert customer[0] in customer;
        }
      }
    }
  }

  function WithAgentTurns(env: Env, score: bool): Env {
    env.(cfg := env.cfg.(scoreAgentTurns := score))
  }

  /** Scoring agent turns changes what is listed per turn, and nothing else. */
  lemma AgentTurnsOnlyListed(raw: Json, env: Env, score: bool)
    ensures var a, b := ScoreBody(raw, env), ScoreBody(raw, WithAgentTurns(env, score));
            a == b.(perTurn := a.perTurn)
  {
    if ParseConversation(raw).Parsed? {
      var c := ParseConversation(raw).conversation;
      KeptIndexIsIdentity(raw.fields["turns"].items);
      AlignmentThroughPermutation(c, env);
      AlignmentThroughPermutation(c, WithAgentTurns(env, score));
      SameMetricsEitherWay(PlainCustomerScores(c.turns, env.foreign), env, score);
    }
  }

  lemma SameMetricsEitherWay(scores: seq<TurnScore>, env: Env, score: bool)
    ensures OverallSentiment(scores, env.cfg) == OverallSentiment(scores, WithAgentTurns(env, score).cfg)
    ensures SentimentTrajectory(scores, env.cfg, env.foreign.tanh)
            == SentimentTrajectory(scores, WithAgentTurns(env, score).cfg, env.foreign.tanh)
  {
  }
}
