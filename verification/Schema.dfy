/** From a raw document to usable turns: what can be scored is kept, what cannot is
    recorded, and only a structurally unusable document is rejected. */
module Schema {
  import opened Prelude
  import opened Json

  datatype Role = Customer | Agent | System

  datatype ParsedTurn = ParsedTurn(index: nat, role: Role, text: string, seqNo: Option<int>, ts: Option<string>)

  datatype DropReason = NonObjectTurn | UnknownRole | MissingText | NullText | NonStringText | MissingTs

  datatype DroppedTurn = DroppedTurn(index: nat, reason: DropReason)

  datatype TurnParse = Kept(turn: ParsedTurn) | Dropped(record: DroppedTurn)

  /** The second half of an error, kept as data rather than as formatted text. */
  datatype Detail =
    | NoDetail
    | TypeName(name: string)
    | NoneUsable(turns: nat)
    | NoneScored(customerTurns: nat)
    | DeliveryCount(count: int)

  datatype ParsedConversation = ParsedConversation(
    tenant: string,
    conversation: string,
    channel: Option<string>,
    startedAt: Option<string>,
    turns: seq<ParsedTurn>,
    dropped: seq<DroppedTurn>)

  datatype Parse = Parsed(conversation: ParsedConversation) | Rejection(reason: string, detail: Detail)

  // ---- Numbers in strings ---------------------------------------------------

  predicate IsSpace(c: char) {
    c == ' ' || '\t' <= c <= '\r' || '\U{1c}' <= c <= '\U{1f}'
  }

  function Strip(s: string): string {
    if s == "" then s
    else if IsSpace(s[0]) then Strip(s[1..])
    else if IsSpace(s[|s| - 1]) then Strip(s[..|s| - 1])
    else s
  }

  function Appended(front: Option<nat>, digit: char): Option<nat>
    requires '0' <= digit <= '9'
  {
    if front.None? then None else Some(10 * front.value + (digit - '0') as nat)
  }

  /** Decimal digits, with single underscores allowed between them. */
  function ParseDigits(s: string): Option<nat> {
    if s == "" || !('0' <= s[|s| - 1] <= '9') then None
    else if |s| == 1 then Appended(Some(0), s[0])
    else Appended(ParseDigits(if s[|s| - 2] == '_' then s[..|s| - 2] else s[..|s| - 1]), s[|s| - 1])
  }

  /** `int()` refuses a string with more digits than this. */
  const MAX_INT_DIGITS: nat := 4300

  function DigitCount(s: string): nat {
    if s == "" then 0
    else DigitCount(s[..|s| - 1]) + if '0' <= s[|s| - 1] <= '9' then 1 else 0
  }

  /** `int(value.strip())`, over ASCII. */
  function ParseInt(s: string): Option<int> {
    var t := Strip(s);
    var signed := t != "" && (t[0] == '-' || t[0] == '+');
    var digits := ParseDigits(if signed then t[1..] else t);
    if digits.None? || DigitCount(t) > MAX_INT_DIGITS then None
    else
      var magnitude: int := digits.value;
      Some(if signed && t[0] == '-' then -magnitude else magnitude)
  }

  function ShowNat(n: nat): (r: string)
    ensures r != "" && forall i :: 0 <= i < |r| ==> '0' <= r[i] <= '9'
  {
    (if n < 10 then "" else ShowNat(n / 10)) + ['0' + (n % 10) as char]
  }

  function ShowInt(n: int): string {
    if n < 0 then "-" + ShowNat(-n) else ShowNat(n)
  }

  lemma LastDigit(front: string, digit: char)
    requires front != "" && front[|front| - 1] != '_' && '0' <= digit <= '9'
    ensures ParseDigits(front + [digit]) == Appended(ParseDigits(front), digit)
  {
    hide Appended;
    var s := front + [digit];
    assert s[..|s| - 1] == front && s[|s| - 2] == front[|front| - 1];
  }

  lemma LastDigitAfterUnderscore(front: string, digit: char)
    requires front != "" && '0' <= digit <= '9'
    ensures ParseDigits(front + "_" + [digit]) == Appended(ParseDigits(front), digit)
  {
    hide Appended;
    var s := front + "_" + [digit];
    assert s[..|s| - 2] == front && s[|s| - 2] == '_';
  }

  lemma {:induction false} DigitsRoundTrip(n: nat)
    ensures ParseDigits(ShowNat(n)) == Some(n)
  {
    if n >= 10 {
      DigitsRoundTrip(n / 10);
      var digit := '0' + (n % 10) as char;
      assert ShowNat(n) == ShowNat(n / 10) + [digit];
      hide ShowNat;
      hide ParseDigits;
      LastDigit(ShowNat(n / 10), digit);
    }
  }

  lemma {:induction false} AllDigits(s: string)
    requires forall i :: 0 <= i < |s| ==> '0' <= s[i] <= '9'
    ensures DigitCount(s) == |s|
  {
    if s != "" {
      AllDigits(s[..|s| - 1]);
    }
  }

  lemma {:induction false} SignIsNoDigit(sign: char, s: string)
    requires !('0' <= sign <= '9')
    ensures DigitCount([sign] + s) == DigitCount(s)
  {
    var t := [sign] + s;
    if s == "" {
      assert t[..0] == "";
    } else {
      SignIsNoDigit(sign, s[..|s| - 1]);
      assert t[..|t| - 1] == [sign] + s[..|s| - 1];
    }
  }

  function TenTo(k: nat): nat {
    if k == 0 then 1 else 10 * TenTo(k - 1)
  }

  /** A number has at most k digits exactly when it is below 10 to the k. */
  lemma {:induction false} ShownLength(n: nat, k: nat)
    requires k >= 1
    ensures |ShowNat(n)| <= k <==> n < TenTo(k)
  {
    if k == 1 {
      assert TenTo(1) == 10 * TenTo(0);
    } else if n < 10 {
      TenToGrows(k - 1);
    } else {
      ShownLength(n / 10, k - 1);
    }
  }

  lemma {:induction false} TenToGrows(k: nat)
    ensures TenTo(k) >= 1
  {
    if k > 0 {
      TenToGrows(k - 1);
    }
  }

  function Magnitude(n: int): nat {
    if n < 0 then -n else n
  }

  function CoerceSeq(value: Json): Option<int> {
    match value
    case Int(n) => Some(n)
    case Str(s) => ParseInt(s)
    case _ => None
  }

  ghost predicate AllSpaces(s: string) {
    forall i :: 0 <= i < |s| ==> IsSpace(s[i])
  }

  lemma {:induction false} StripPadded(before: string, core: string, behind: string)
    requires AllSpaces(before) && AllSpaces(behind)
    requires core != "" && !IsSpace(core[0]) && !IsSpace(core[|core| - 1])
    ensures Strip(before + core + behind) == core
    decreases |before| + |behind|
  {
    var s := before + core + behind;
    if before != "" {
      assert s[0] == before[0] && s[1..] == before[1..] + core + behind;
      StripPadded(before[1..], core, behind);
    } else if behind != "" {
      var n := |behind| - 1;
      assert s[0] == core[0] && s[|s| - 1] == behind[n] && s[..|s| - 1] == before + core + behind[..n];
      StripPadded(before, core, behind[..n]);
    } else {
      assert s == core;
    }
  }

  lemma UnspacedEnds(s: string)
    requires s != "" && !IsSpace(s[0]) && !IsSpace(s[|s| - 1])
    ensures Strip(s) == s
  {
  }

  /** A number written out bare, or under a sign. */
  lemma ShownReadsBack(n: nat)
    ensures ParseInt(ShowNat(n)) == if n < TenTo(MAX_INT_DIGITS) then Some(n as int) else None
    ensures var s := ShowNat(n); Strip(s) == s && !IsSpace(s[0]) && !IsSpace(s[|s| - 1])
  {
    hide ShowNat;
    hide ParseDigits;
    hide DigitCount;
    hide TenTo;
    DigitsRoundTrip(n);
    ShownLength(n, MAX_INT_DIGITS);
    AllDigits(ShowNat(n));
    UnspacedEnds(ShowNat(n));
    hide Strip;
  }

  lemma SignedReadsBack(sign: char, n: nat)
    requires sign == '-' || sign == '+'
    ensures ParseInt([sign] + ShowNat(n))
            == if n < TenTo(MAX_INT_DIGITS) then Some(if sign == '-' then -(n as int) else n as int) else None
    ensures var s := [sign] + ShowNat(n); Strip(s) == s && !IsSpace(s[0]) && !IsSpace(s[|s| - 1])
  {
    hide ShowNat;
    hide ParseDigits;
    hide DigitCount;
    hide TenTo;
    var shown := ShowNat(n);
    var s := [sign] + shown;
    DigitsRoundTrip(n);
    ShownLength(n, MAX_INT_DIGITS);
    AllDigits(shown);
    SignIsNoDigit(sign, shown);
    assert s[1..] == shown && s[|s| - 1] == shown[|shown| - 1];
    UnspacedEnds(s);
    hide Strip;
  }

  lemma PaddedReadsAlike(before: string, core: string, behind: string)
    requires AllSpaces(before) && AllSpaces(behind)
    requires core != "" && !IsSpace(core[0]) && !IsSpace(core[|core| - 1]) && Strip(core) == core
    ensures ParseInt(before + core + behind) == ParseInt(core)
  {
    hide Strip;
    hide ParseDigits;
    hide DigitCount;
    StripPadded(before, core, behind);
  }

  /** A `seq` that is an integer is taken as it is; one that is an integer written out, with
      spaces around it, reads back as that integer, up to the length at which `int()` refuses. */
  lemma IntRoundTrip(n: int, before: string, behind: string)
    requires AllSpaces(before) && AllSpaces(behind)
    ensures CoerceSeq(Int(n)) == Some(n)
    ensures CoerceSeq(Str(before + ShowInt(n) + behind))
            == if Magnitude(n) < TenTo(MAX_INT_DIGITS) then Some(n) else None
  {
    hide ShowNat;
    hide TenTo;
    hide ParseInt;
    hide Strip;
    if n < 0 {
      SignedReadsBack('-', Magnitude(n));
      assert ShowInt(n) == ['-'] + ShowNat(Magnitude(n));
    } else {
      ShownReadsBack(Magnitude(n));
    }
    PaddedReadsAlike(before, ShowInt(n), behind);
  }

  /** Nothing but an integer or a string is ever coerced, not even a boolean. */
  lemma OnlyIntsAndStrings(value: Json)
    ensures CoerceSeq(value).Some? ==> value.Int? || value.Str?
    ensures value.Str? && CoerceSeq(value).Some? ==> exists c :: c in value.s && '0' <= c <= '9'
  {
    if value.Str? && CoerceSeq(value).Some? {
      StripKeeps(value.s);
      var t := Strip(value.s);
      var digits := if t[0] == '-' || t[0] == '+' then t[1..] else t;
      assert digits[|digits| - 1] in t;
    }
  }

  lemma {:induction false} StripKeeps(s: string)
    ensures forall c :: c in Strip(s) ==> c in s
    decreases |s|
  {
    if s != "" {
      if IsSpace(s[0]) {
        StripKeeps(s[1..]);
      } else if IsSpace(s[|s| - 1]) {
        StripKeeps(s[..|s| - 1]);
      }
    }
  }

  /** Digits, with underscores only between two of them. */
  ghost predicate WellFormedDigits(s: string) {
    && s != "" && '0' <= s[0] <= '9' && '0' <= s[|s| - 1] <= '9'
    && forall i :: 0 <= i < |s| ==> '0' <= s[i] <= '9' || (s[i] == '_' && 0 < i && '0' <= s[i - 1] <= '9')
  }

  /** What is read as a number is exactly what is well formed. */
  lemma {:induction false} ReadIffWellFormed(s: string)
    ensures ParseDigits(s).Some? <==> WellFormedDigits(s)
    decreases |s|
  {
    if s != "" && '0' <= s[|s| - 1] <= '9' && |s| > 1 {
      var front := if s[|s| - 2] == '_' then s[..|s| - 2] else s[..|s| - 1];
      ReadIffWellFormed(front);
      assert ParseDigits(s).Some? <==> ParseDigits(front).Some?;
      assert forall i :: 0 <= i < |front| ==> front[i] == s[i];
      if WellFormedDigits(s) {
        assert front != "" && '0' <= front[|front| - 1] <= '9';
      }
      if WellFormedDigits(front) {
        forall i | 0 <= i < |s| ensures '0' <= s[i] <= '9' || (s[i] == '_' && 0 < i && '0' <= s[i - 1] <= '9') {
          if i < |front| {
            assert front[i] == s[i] && (i > 0 ==> front[i - 1] == s[i - 1]);
          }
        }
      }
    }
  }

  /** Single underscores between digits are read over. */
  lemma {:induction false} UnderscoreIsReadOver(a: string, b: string)
    requires a != "" && '0' <= a[|a| - 1] <= '9'
    requires b != "" && forall i :: 0 <= i < |b| ==> '0' <= b[i] <= '9'
    ensures ParseDigits(a + "_" + b) == ParseDigits(a + b)
    decreases |b|
  {
    hide *;
    var n := |b| - 1;
    var front, digit := b[..n], b[n];
    assert b == front + [digit];
    if n == 0 {
      assert a + "_" + b == a + "_" + [digit] && a + b == a + [digit];
      LastDigitAfterUnderscore(a, digit);
      LastDigit(a, digit);
    } else {
      assert a + "_" + b == (a + "_" + front) + [digit] && a + b == (a + front) + [digit];
      UnderscoreIsReadOver(a, front);
      LastDigit(a + "_" + front, digit);
      LastDigit(a + front, digit);
    }
  }

  // ---- Turns ----------------------------------------------------------------

  function RoleOf(value: Json): Option<Role> {
    if value == Str("customer") then Some(Customer)
    else if value == Str("agent") then Some(Agent)
    else if value == Str("system") then Some(System)
    else None
  }

  function ParseTurn(index: nat, raw: Json): TurnParse {
    if !raw.Obj? then Dropped(DroppedTurn(index, NonObjectTurn))
    else if RoleOf(Get(raw, "role")).None? then Dropped(DroppedTurn(index, UnknownRole))
    else if "text" !in raw.fields then Dropped(DroppedTurn(index, MissingText))
    else if raw.fields["text"].Null? then Dropped(DroppedTurn(index, NullText))
    else if !raw.fields["text"].Str? then Dropped(DroppedTurn(index, NonStringText))
    else
      var ts := Get(raw, "ts");
      if ts.Null? then Dropped(DroppedTurn(index, MissingTs))
      else
        Kept(ParsedTurn(
               index,
               RoleOf(Get(raw, "role")).value,
               raw.fields["text"].s,
               CoerceSeq(Get(raw, "seq")),
               if ts.Str? then Some(ts.s) else None))
  }

  function RoleName(role: Role): string {
    match role
    case Customer => "customer"
    case Agent => "agent"
    case System => "system"
  }

  /** Why a turn is dropped, first reason first, and otherwise what of it is kept. */
  lemma TurnIsUsable(index: nat, raw: Json)
    ensures var parse := ParseTurn(index, raw);
            var isObject := raw.Obj?;
            var known := isObject && "role" in raw.fields && exists role :: raw.fields["role"] == Str(RoleName(role));
            var text := known && "text" in raw.fields;
            var spoken := text && raw.fields["text"].Str?;
            var dated := spoken && "ts" in raw.fields && !raw.fields["ts"].Null?;
            && (parse == Dropped(DroppedTurn(index, NonObjectTurn)) <==> !isObject)
            && (parse == Dropped(DroppedTurn(index, UnknownRole)) <==> isObject && !known)
            && (parse == Dropped(DroppedTurn(index, MissingText)) <==> known && !text)
            && (parse == Dropped(DroppedTurn(index, NullText)) <==> text && raw.fields["text"].Null?)
            && (parse == Dropped(DroppedTurn(index, NonStringText)) <==> text && !spoken && !raw.fields["text"].Null?)
            && (parse == Dropped(DroppedTurn(index, MissingTs)) <==> spoken && !dated)
            && (parse.Kept? <==> dated)
            && (dated ==>
                  && parse.turn.index == index
                  && raw.fields["role"] == Str(RoleName(parse.turn.role))
                  && raw.fields["text"] == Str(parse.turn.text)
                  && (parse.turn.ts.Some? <==> raw.fields["ts"].Str?)
                  && (parse.turn.ts.Some? ==> raw.fields["ts"] == Str(parse.turn.ts.value))
                  && (parse.turn.seqNo == if "seq" in raw.fields then CoerceSeq(raw.fields["seq"]) else None))
  {
    assert RoleName(Customer) == "customer" && RoleName(Agent) == "agent" && RoleName(System) == "system";
    hide CoerceSeq;
  }

  function KeptTurns(items: seq<Json>): seq<ParsedTurn> {
    if items == [] then []
    else
      var n := |items| - 1;
      var last := ParseTurn(n, items[n]);
      KeptTurns(items[..n]) + if last.Kept? then [last.turn] else []
  }

  function DroppedTurns(items: seq<Json>): seq<DroppedTurn> {
    if items == [] then []
    else
      var n := |items| - 1;
      var last := ParseTurn(n, items[n]);
      DroppedTurns(items[..n]) + if last.Dropped? then [last.record] else []
  }

  /** The loop of `parse_conversation` over the turns array. */
  method ParseTurns(items: seq<Json>) returns (kept: seq<ParsedTurn>, dropped: seq<DroppedTurn>)
    ensures kept == KeptTurns(items) && dropped == DroppedTurns(items)
  {
    kept, dropped := [], [];
    for i := 0 to |items|
      invariant kept == KeptTurns(items[..i]) && dropped == DroppedTurns(items[..i])
    {
      assert items[..i + 1][..i] == items[..i];
      match ParseTurn(i, items[i])
      case Kept(turn) => kept := kept + [turn];
      case Dropped(record) => dropped := dropped + [record];
    }
    assert items[..|items|] == items;
  }

  lemma ParsedAtItsIndex(i: nat, raw: Json)
    ensures match ParseTurn(i, raw)
            case Kept(t) => t.index == i
            case Dropped(d) => d.index == i
  {
  }

  /** What is in each list: of every position, what parsing it says. */
  lemma {:induction false} ListMembers(items: seq<Json>)
    ensures forall t :: t in KeptTurns(items) <==> t.index < |items| && ParseTurn(t.index, items[t.index]) == Kept(t)
    ensures forall d :: d in DroppedTurns(items) <==> d.index < |items| && ParseTurn(d.index, items[d.index]) == Dropped(d)
  {
    hide ParseTurn;
    if items != [] {
      var n := |items| - 1;
      ListMembers(items[..n]);
      ParsedAtItsIndex(n, items[n]);
    }
  }

  /** Each list names its turns in array order, and says of each what parsing that
      position says; together they name every position exactly once. */
  lemma {:induction false} TurnsArePartitioned(items: seq<Json>)
    ensures |KeptTurns(items)| + |DroppedTurns(items)| == |items|
    ensures var kept := KeptTurns(items); forall i, j :: 0 <= i < j < |kept| ==> kept[i].index < kept[j].index
    ensures var dropped := DroppedTurns(items); forall i, j :: 0 <= i < j < |dropped| ==> dropped[i].index < dropped[j].index
    ensures forall t :: t in KeptTurns(items) <==> t.index < |items| && ParseTurn(t.index, items[t.index]) == Kept(t)
    ensures forall d :: d in DroppedTurns(items) <==> d.index < |items| && ParseTurn(d.index, items[d.index]) == Dropped(d)
  {
    hide ParseTurn;
    ListMembers(items);
    if items != [] {
      var n := |items| - 1;
      TurnsArePartitioned(items[..n]);
      ParsedAtItsIndex(n, items[n]);
    }
  }

  // ---- Conversations --------------------------------------------------------

  function PythonType(v: Json): string {
    match v
    case Null => "NoneType"
    case Bool(_) => "bool"
    case Int(_) => "int"
    case Float(_) => "float"
    case Str(_) => "str"
    case Arr(_) => "list"
    case Obj(_) => "dict"
  }

  function StringOr(v: Json): Option<string> {
    if v.Str? then Some(v.s) else None
  }

  function ParseConversation(raw: Json): Parse {
    if !raw.Obj? then Rejection("not_an_object", TypeName(PythonType(raw)))
    else if !NonEmptyString(Get(raw, "tenant_id")) then Rejection("missing_tenant_id", NoDetail)
    else if !NonEmptyString(Get(raw, "conversation_id")) then Rejection("missing_conversation_id", NoDetail)
    else if "turns" !in raw.fields then Rejection("no_turns_key", NoDetail)
    else if !raw.fields["turns"].Arr? then Rejection("turns_not_list", TypeName(PythonType(raw.fields["turns"])))
    else
      var items := raw.fields["turns"].items;
      var kept, dropped := KeptTurns(items), DroppedTurns(items);
      if items != [] && kept == [] then Rejection("no_recognised_roles", NoneUsable(|dropped|))
      else
        Parsed(ParsedConversation(
                 Get(raw, "tenant_id").s,
                 Get(raw, "conversation_id").s,
                 StringOr(Get(raw, "channel")),
                 StringOr(Get(raw, "started_at")),
                 kept,
                 dropped))
  }

  /** Why a document is rejected, first reason first, and otherwise what of it is kept. */
  lemma DocumentIsUsable(raw: Json)
    ensures var parse := ParseConversation(raw);
            var isObject := raw.Obj?;
            var tenant := isObject && "tenant_id" in raw.fields && raw.fields["tenant_id"].Str? && raw.fields["tenant_id"] != Str("");
            var named := tenant && "conversation_id" in raw.fields && raw.fields["conversation_id"].Str?
                         && raw.fields["conversation_id"] != Str("");
            var turns := named && "turns" in raw.fields;
            var listed := turns && raw.fields["turns"].Arr?;
            var usable := listed && (raw.fields["turns"].items == []
                                     || exists i :: 0 <= i < |raw.fields["turns"].items|
                                                    && ParseTurn(i, raw.fields["turns"].items[i]).Kept?);
            && (parse.Rejection? && parse.reason == "not_an_object" <==> !isObject)
            && (parse.Rejection? && parse.reason == "missing_tenant_id" <==> isObject && !tenant)
            && (parse.Rejection? && parse.reason == "missing_conversation_id" <==> tenant && !named)
            && (parse.Rejection? && parse.reason == "no_turns_key" <==> named && !turns)
            && (parse.Rejection? && parse.reason == "turns_not_list" <==> turns && !listed)
            && (parse.Rejection? && parse.reason == "no_recognised_roles" <==> listed && !usable)
            && (listed && !usable ==> parse.detail == NoneUsable(|raw.fields["turns"].items|))
            && (parse.Parsed? <==> usable)
            && (usable ==>
                  && raw.fields["tenant_id"] == Str(parse.conversation.tenant)
                  && raw.fields["conversation_id"] == Str(parse.conversation.conversation)
                  && parse.conversation.channel
                     == (if "channel" in raw.fields && raw.fields["channel"].Str? then Some(raw.fields["channel"].s) else None)
                  && parse.conversation.startedAt
                     == (if "started_at" in raw.fields && raw.fields["started_at"].Str? then Some(raw.fields["started_at"].s) else None))
  {
    hide ParseTurn;
    if raw.Obj? && "turns" in raw.fields && raw.fields["turns"].Arr? {
      var items := raw.fields["turns"].items;
      TurnsArePartitioned(items);
      KeptIfAny(items);
    }
  }

  lemma KeptIfAny(items: seq<Json>)
    ensures KeptTurns(items) == [] <==> forall i :: 0 <= i < |items| ==> !ParseTurn(i, items[i]).Kept?
    ensures KeptTurns(items) == [] ==> |DroppedTurns(items)| == |items|
  {
    hide ParseTurn;
    TurnsArePartitioned(items);
    var kept := KeptTurns(items);
    hide KeptTurns;
    hide DroppedTurns;
    if kept != [] {
      assert kept[0] in kept;
    }
    forall i | 0 <= i < |items| && ParseTurn(i, items[i]).Kept? ensures kept != [] {
      ParsedAtItsIndex(i, items[i]);
      assert ParseTurn(i, items[i]).turn in kept;
    }
  }

  /** `parse_conversation`, with its loop over the turns. */
  method ParseDocument(raw: Json) returns (r: Parse)
    ensures r == ParseConversation(raw)
  {
    if !raw.Obj? {
      return Rejection("not_an_object", TypeName(PythonType(raw)));
    }
    var tenant, conversation := Get(raw, "tenant_id"), Get(raw, "conversation_id");
    if !NonEmptyString(tenant) {
      return Rejection("missing_tenant_id", NoDetail);
    }
    if !NonEmptyString(conversation) {
      return Rejection("missing_conversation_id", NoDetail);
    }
    if "turns" !in raw.fields {
      return Rejection("no_turns_key", NoDetail);
    }
    var turns := raw.fields["turns"];
    if !turns.Arr? {
      return Rejection("turns_not_list", TypeName(PythonType(turns)));
    }
    var kept, dropped := ParseTurns(turns.items);
    if turns.items != [] && kept == [] {
      return Rejection("no_recognised_roles", NoneUsable(|dropped|));
    }
    r := Parsed(ParsedConversation(tenant.s, conversation.s, StringOr(Get(raw, "channel")),
                                   StringOr(Get(raw, "started_at")), kept, dropped));
  }

  /** A parsed document loses no position: its turns and dropped turns cover the array
      it came from, and a rejection of the array means that nothing in it was usable. */
  lemma ParsingCoversTheArray(raw: Json)
    requires raw.Obj? && "turns" in raw.fields && raw.fields["turns"].Arr? && Identity(raw).Some?
    ensures var items := raw.fields["turns"].items;
            match ParseConversation(raw)
            case Parsed(c) =>
              && |c.turns| + |c.dropped| == |items|
              && Key(c.tenant, c.conversation) == Identity(raw).value
              && (forall i :: 0 <= i < |items| ==>
                    match ParseTurn(i, items[i])
                    case Kept(t) => t in c.turns
                    case Dropped(d) => d in c.dropped)
            case Rejection(_, _) =>
              items != [] && forall i :: 0 <= i < |items| ==> ParseTurn(i, items[i]).Dropped?
  {
    var items := raw.fields["turns"].items;
    TurnsArePartitioned(items);
    forall i | 0 <= i < |items| ensures ParseTurn(i, items[i]).Kept? ==> ParseTurn(i, items[i]).turn in KeptTurns(items) {
      ParsedAtItsIndex(i, items[i]);
    }
    forall i | 0 <= i < |items| ensures ParseTurn(i, items[i]).Dropped? ==> ParseTurn(i, items[i]).record in DroppedTurns(items) {
      ParsedAtItsIndex(i, items[i]);
    }
  }

  function TurnsOf(turns: seq<ParsedTurn>, role: Role): (r: seq<ParsedTurn>)
    ensures forall t :: t in r <==> t in turns && t.role == role
  {
    if turns == [] then []
    else if turns[0].role == role then [turns[0]] + TurnsOf(turns[1..], role)
    else TurnsOf(turns[1..], role)
  }

  function CustomerTurns(turns: seq<ParsedTurn>): seq<ParsedTurn> {
    TurnsOf(turns, Customer)
  }
}
