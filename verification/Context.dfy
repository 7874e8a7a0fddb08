/** The context-window policy: clamped reserves, the token estimate, compression. */
module Context {
  import opened Wrappers
  import opened Transcript
  import Utf8

  function Max(a: int, b: int): int { if a > b then a else b }
  function Min(a: int, b: int): int { if a < b then a else b }

  // ---------------------------------------------------------------- the estimate

  /** One token a character, or a quarter of an octet count if that is larger. */
  function EstimatePayload(payload: string): nat {
    Max(|payload|, (Utf8.Size(payload) + 3) / 4)
  }

  /** A character never takes more than four octets, so the second bound never wins. */
  lemma EstimateIsLength(payload: string)
    ensures EstimatePayload(payload) == |payload|
  {
    Utf8.SizeBounds(payload);
  }

  // ---------------------------------------------------------------- the budget

  class ContextManager {
    var contextWindow: int
    var thresholdRatio: real
    var keepRounds: nat
    var outputReserve: int
    var safetyReserve: int
    var runtimeReserve: nat

    ghost predicate Valid()
      reads this
    {
      && contextWindow >= 1024
      && 256 <= outputReserve <= contextWindow - 256
      && 128 <= safetyReserve
      && outputReserve + safetyReserve <= contextWindow - 128
      && 0.1 <= thresholdRatio <= 0.95
      && keepRounds >= 1
    }

    /** Whatever is asked for, at least 128 tokens are left for input. */
    constructor (window: int, ratio: real, rounds: int, output: Option<int>, safety: Option<int>)
      ensures Valid() && runtimeReserve == 0
      ensures contextWindow == if window < 1024 then 1024 else window
      ensures keepRounds == if rounds < 1 then 1 else rounds
      ensures thresholdRatio == if ratio < 0.1 then 0.1 else if ratio > 0.95 then 0.95 else ratio
      ensures output.Some? ==>
                outputReserve == if output.value < 256 then 256
                                 else if output.value > contextWindow - 256 then contextWindow - 256
                                 else output.value
      ensures output.None? ==>
                outputReserve == if contextWindow < 4096 then 256
                                 else if contextWindow >= 262144 then 16384 else contextWindow / 16
      ensures safety.Some? ==>
                safetyReserve == if safety.value < 128 then 128
                                 else if safety.value > contextWindow - outputReserve - 128
                                 then contextWindow - outputReserve - 128
                                 else safety.value
      ensures safety.None? ==>
                var wanted := if contextWindow < 10240 then 512 else contextWindow / 20;
                safetyReserve == if wanted > contextWindow - outputReserve - 128
                                 then contextWindow - outputReserve - 128 else wanted
    {
      var w := Max(1024, window);
      contextWindow := w;
      thresholdRatio := if ratio < 0.1 then 0.1 else if ratio > 0.95 then 0.95 else ratio;
      keepRounds := Max(1, rounds);
      var o := Min(w - 256, Max(256, if output.Some? then output.value else Min(16384, w / 16)));
      outputReserve := o;
      var remaining := Max(256, w - o);
      safetyReserve := Min(remaining - 128, Max(128, if safety.Some? then safety.value else Max(512, w / 20)));
      runtimeReserve := 0;
    }

    /** `payload` is the JSON text of the system prompt, the tools and the state. */
    method SetRuntimeReservations(payload: string)
      modifies this`runtimeReserve
      ensures runtimeReserve == |payload|
    {
      EstimateIsLength(payload);
      runtimeReserve := EstimatePayload(payload);
    }

    function EffectiveInputTokens(): (n: int)
      reads this
      ensures n >= 128
    {
      Max(128, contextWindow - outputReserve - safetyReserve - runtimeReserve)
    }

    function ShouldCompress(estimate: nat): (should: bool)
      reads this
      ensures should <==> estimate as real > EffectiveInputTokens() as real * thresholdRatio - 1.0
    {
      estimate >= (EffectiveInputTokens() as real * thresholdRatio).Floor
    }
  }

  /** What a request takes of the window when its messages are estimated at `estimate`. */
  ghost predicate Fits(m: ContextManager, estimate: nat)
    reads m
  {
    estimate + m.runtimeReserve + m.outputReserve + m.safetyReserve <= m.contextWindow
  }

  /**
   The budget check lets only requests through that fit the window, exactly as long as
   the runtime reserve leaves the minimum of 128 tokens. Beyond that the minimum itself
   overcommits the window.
   */
  lemma AdmittedRequestsFit(m: ContextManager)
    requires m.Valid()
    ensures (forall estimate: nat :: estimate <= m.EffectiveInputTokens() ==> Fits(m, estimate))
            <==> m.runtimeReserve <= m.contextWindow - m.outputReserve - m.safetyReserve - 128
  {
    if m.runtimeReserve > m.contextWindow - m.outputReserve - m.safetyReserve - 128 {
      assert 128 <= m.EffectiveInputTokens() && !Fits(m, 128);
    }
  }

  /** The budget is the largest there is: one token more does not fit. */
  lemma BudgetIsTight(m: ContextManager)
    requires m.Valid()
    requires m.runtimeReserve <= m.contextWindow - m.outputReserve - m.safetyReserve - 128
    ensures Fits(m, m.EffectiveInputTokens()) && !Fits(m, m.EffectiveInputTokens() + 1)
    ensures m.EffectiveInputTokens() + m.runtimeReserve + m.outputReserve + m.safetyReserve == m.contextWindow
  {
  }

  // ---------------------------------------------------------------- compression

  /** Where compression would cut: in front of the last `keep` rounds, if there are more. */
  function CutPoint(ms: seq<Message>, keep: nat): (cut: Option<nat>)
    requires keep >= 1
    ensures cut.Some? ==> 0 < cut.value < |ms| && ms[cut.value].User?
  {
    UserIndexesAre(ms);
    var users := UserIndexes(ms);
    assert |users| > keep ==> users[0] < users[|users| - keep];
    if |users| <= keep then None else Some(users[|users| - keep])
  }

  datatype History = History(messages: seq<Message>, summary: string)

  /** `reply` is what the summarizer returns: nothing when it raised. */
  function Compress(h: History, keep: nat, should: bool, reply: Option<string>): History
    requires keep >= 1
  {
    var cut := CutPoint(h.messages, keep);
    if !should || cut == None || reply == None || reply.value == "" then h
    else History(h.messages[cut.value..], reply.value)
  }

  lemma CutKeepsRounds(ms: seq<Message>, keep: nat)
    requires keep >= 1 && CutPoint(ms, keep).Some?
    ensures |UserIndexes(ms[CutPoint(ms, keep).value..])| == keep
  {
    var users := UserIndexes(ms);
    UserIndexesAre(ms);
    assert users[0] < users[|users| - keep];
    RoundsAfterCut(ms, |users| - keep);
  }

  /** A compression that takes effect keeps exactly the last `keep` rounds as they were,
      keeps the shape, and leaves nothing for another one to cut. */
  lemma CompressKeepsRounds(h: History, keep: nat, should: bool, reply: Option<string>)
    requires keep >= 1 && WellShaped(h.messages)
    ensures var c := Compress(h, keep, should, reply);
            && WellShaped(c.messages)
            && ShapeOf(c.messages) == ShapeOf(h.messages)
    ensures var c := Compress(h, keep, should, reply);
            c.messages != h.messages ==>
              && |UserIndexes(c.messages)| == keep < |UserIndexes(h.messages)|
              && |c.messages| <= |h.messages|
              && c.messages == h.messages[|h.messages| - |c.messages|..]
              && c.messages[0].User?
    ensures var c := Compress(h, keep, should, reply);
            if should && |UserIndexes(h.messages)| > keep && reply.Some? && reply.value != ""
            then c.summary == reply.value && |UserIndexes(c.messages)| == keep
            else c == h
  {
    if CutPoint(h.messages, keep).Some? {
      CutKeepsRounds(h.messages, keep);
      CutKeepsShape(h.messages, CutPoint(h.messages, keep).value);
    }
  }

  /** Whatever the second call's estimate and summarizer say. */
  lemma CompressIsIdempotent(h: History, keep: nat, should: bool, reply: Option<string>,
                             should2: bool, reply2: Option<string>)
    requires keep >= 1
    requires Compress(h, keep, should, reply) != h
    ensures var c := Compress(h, keep, should, reply); Compress(c, keep, should2, reply2) == c
  {
    CutKeepsRounds(h.messages, keep);
  }

  // ---------------------------------------------------------------- the two texts

  /** How values become JSON: a text in quotes, and a message without and with spaces after
      its separators. The instruction comes before the request for a summary. */
  datatype Json = Json(quote: string -> string, compact: Message -> string, spaced: Message -> string,
                       instruction: string)

  function Listed(encode: Message -> string, separator: string, ms: seq<Message>): string {
    if ms == [] then ""
    else if |ms| == 1 then encode(ms[0])
    else Listed(encode, separator, ms[..|ms| - 1]) + separator + encode(ms[|ms| - 1])
  }

  /** The history, as it is estimated. */
  function HistoryText(json: Json, ms: seq<Message>, summary: string): string {
    "{\"summary\":" + json.quote(summary) + ",\"messages\":[" + Listed(json.compact, ",", ms) + "]}"
  }

  /** The request to summarize old messages. */
  function SummaryRequest(json: Json, early: seq<Message>, summary: string): string {
    json.instruction
    + "{\"previous_summary\": " + json.quote(summary) + ", \"messages\": [" + Listed(json.spaced, ", ", early) + "]}"
  }

  /** What messages take of a list, each with a separator. */
  function Weight(encode: Message -> string, separator: nat, ms: seq<Message>): nat {
    if ms == [] then 0
    else Weight(encode, separator, ms[..|ms| - 1]) + |encode(ms[|ms| - 1])| + separator
  }

  /** What the spaces add to old messages. */
  function Spaces(json: Json, ms: seq<Message>): int {
    Weight(json.spaced, 2, ms) - Weight(json.compact, 1, ms)
  }

  lemma {:induction false} ListedLength(encode: Message -> string, separator: string, ms: seq<Message>)
    ensures |Listed(encode, separator, ms)| == Weight(encode, |separator|, ms) - if ms == [] then 0 else |separator|
  {
    if |ms| == 1 {
      assert ms[..0] == [];
    } else if ms != [] {
      ListedLength(encode, separator, ms[..|ms| - 1]);
    }
  }

  lemma {:induction false} WeightConcat(encode: Message -> string, separator: nat, a: seq<Message>, b: seq<Message>)
    ensures Weight(encode, separator, a + b) == Weight(encode, separator, a) + Weight(encode, separator, b)
  {
    if b == [] {
      assert a + b == a;
    } else {
      WeightConcat(encode, separator, a, b[..|b| - 1]);
      assert (a + b)[..|a + b| - 1] == a + b[..|b| - 1];
    }
  }

  /** What a history takes, less its kept rounds, and with the spaces of its old messages. */
  function OldPart(json: Json, ms: seq<Message>, cut: nat, summary: string): int
    requires cut <= |ms|
  {
    EstimatePayload(HistoryText(json, ms, summary)) - Weight(json.compact, 1, ms[cut..]) + Spaces(json, ms[..cut])
  }

  /** What the request for a summary adds to its instruction and the old part. */
  const FRAME := 11

  lemma SummaryRequestLength(json: Json, ms: seq<Message>, cut: nat, summary: string)
    requires 0 < cut <= |ms|
    ensures EstimatePayload(SummaryRequest(json, ms[..cut], summary))
         == OldPart(json, ms, cut, summary) + |json.instruction| + FRAME
  {
    var early, late := ms[..cut], ms[cut..];
    assert ms == early + late;
    EstimateIsLength(SummaryRequest(json, early, summary));
    EstimateIsLength(HistoryText(json, ms, summary));
    ListedLength(json.spaced, ", ", early);
    ListedLength(json.compact, ",", ms);
    WeightConcat(json.compact, 1, early, late);
  }

  // ---------------------------------------------------------------- the request for a summary

  /** No branch looks at the size of the request for a summary. It fits the window if and
      only if the estimate of the history, less what the kept rounds take and with the spaces
      of the old messages, leaves room for the fixed text of the request. */
  lemma SummaryFitsIff(m: ContextManager, json: Json, ms: seq<Message>, summary: string)
    requires m.Valid() && CutPoint(ms, m.keepRounds).Some?
    ensures var cut := CutPoint(ms, m.keepRounds).value;
            EstimatePayload(SummaryRequest(json, ms[..cut], summary)) <= m.contextWindow
            <==> OldPart(json, ms, cut, summary) <= m.contextWindow - |json.instruction| - FRAME
  {
    SummaryRequestLength(json, ms, CutPoint(ms, m.keepRounds).value, summary);
  }

  /** So it fits for every history within the input budget whose spaces, together with the
      fixed text, take no more than the reserves and the kept rounds. */
  lemma BudgetedSummaryFits(m: ContextManager, json: Json, ms: seq<Message>, summary: string)
    requires m.Valid() && CutPoint(ms, m.keepRounds).Some?
    requires m.runtimeReserve <= m.contextWindow - m.outputReserve - m.safetyReserve - 128
    requires EstimatePayload(HistoryText(json, ms, summary)) <= m.EffectiveInputTokens()
    requires var cut := CutPoint(ms, m.keepRounds).value;
             Spaces(json, ms[..cut]) + |json.instruction| + FRAME
             <= m.outputReserve + m.safetyReserve + m.runtimeReserve + Weight(json.compact, 1, ms[cut..])
    ensures EstimatePayload(SummaryRequest(json, ms[..CutPoint(ms, m.keepRounds).value], summary)) <= m.contextWindow
  {
    SummaryFitsIff(m, json, ms, summary);
  }

  /** A round with one tool answer, and as many short rounds as are kept. */
  function LongHistory(answer: string, keep: nat): seq<Message> {
    [User("q"), Assistant("", ["c"]), Tool("c", answer)] + seq(keep, i => User("q"))
  }

  const MAX_QUESTION := 8000

  /** A run can store these messages: only questions are capped. */
  ghost predicate Storable(ms: seq<Message>) {
    WellShaped(ms) && forall i :: 0 <= i < |ms| && ms[i].User? ==> 0 < |ms[i].content| <= MAX_QUESTION
  }

  /** JSON text shows what a message says. */
  ghost predicate ShowsContents(json: Json) {
    forall m :: |json.compact(m)| >= |m.content| && |json.spaced(m)| >= |m.content|
  }

  lemma UsersSnoc(ms: seq<Message>, m: Message)
    ensures UserIndexes(ms + [m]) == UserIndexes(ms) + (if m.User? then [|ms|] else [])
  {
    assert (ms + [m])[..|ms|] == ms;
  }

  lemma OneRound(answer: string)
    ensures WellShaped([User("q"), Assistant("", ["c"]), Tool("c", answer)])
    ensures UserIndexes([User("q"), Assistant("", ["c"]), Tool("c", answer)]) == [0]
  {
    hide ShapeOf, UserIndexes;
    var q, a, t := User("q"), Assistant("", ["c"]), Tool("c", answer);
    assert ShapeOf([]) == Start && UserIndexes([]) == [] by {
      NoMessages();
    }
    ShapeSnoc([], q);
    ShapeSnoc([q], a);
    ShapeSnoc([q, a], t);
    UsersSnoc([], q);
    UsersSnoc([q], a);
    UsersSnoc([q, a], t);
    assert [] + [q] == [q] && [q] + [a] == [q, a] && [q, a] + [t] == [q, a, t];
  }

  lemma NoMessages()
    ensures ShapeOf([]) == Start && UserIndexes([]) == []
  {
  }

  lemma {:induction false} LongHistoryIs(answer: string, keep: nat)
    ensures WellShaped(LongHistory(answer, keep))
    ensures UserIndexes(LongHistory(answer, keep)) == [0] + seq(keep, i => 3 + i)
  {
    hide ShapeOf, UserIndexes;
    OneRound(answer);
    var ms := LongHistory(answer, keep);
    if keep == 0 {
      assert ms == [User("q"), Assistant("", ["c"]), Tool("c", answer)];
    } else {
      var front := LongHistory(answer, keep - 1);
      LongHistoryIs(answer, keep - 1);
      assert ms == front + [User("q")];
      ShapeSnoc(front, User("q"));
      UsersSnoc(front, User("q"));
    }
  }

  lemma {:induction false} HeavyMessage(encode: Message -> string, separator: nat, ms: seq<Message>, i: nat)
    requires i < |ms|
    ensures Weight(encode, separator, ms) >= |encode(ms[i])|
  {
    if i < |ms| - 1 {
      HeavyMessage(encode, separator, ms[..|ms| - 1], i);
    }
  }

  /** And for every manager there is a conversation that a run can store and that is to be
      cut, whose request for a summary exceeds the window: tool answers are not capped. */
  lemma SummaryMayNotFit(m: ContextManager, json: Json) returns (ms: seq<Message>)
    requires m.Valid() && ShowsContents(json)
    ensures Storable(ms) && m.ShouldCompress(EstimatePayload(HistoryText(json, ms, "")))
    ensures var cut := CutPoint(ms, m.keepRounds);
            cut.Some? && EstimatePayload(SummaryRequest(json, ms[..cut.value], "")) > m.contextWindow
  {
    hide Listed, Weight, UserIndexes, ShapeOf, CutPoint, LongHistory, HistoryText, SummaryRequest;
    var answer := seq(m.contextWindow + 1, i => 'x');
    ms := LongHistory(answer, m.keepRounds);
    LongHistoryCut(answer, m.keepRounds);
    LongTexts(json, ms, 2, 3);
    EstimateIsLength(HistoryText(json, ms, ""));
    EstimateIsLength(SummaryRequest(json, ms[..3], ""));
    BelowWindow(m);
  }

  lemma LongHistoryCut(answer: string, keep: nat)
    requires keep >= 1
    ensures Storable(LongHistory(answer, keep)) && |LongHistory(answer, keep)| == keep + 3
    ensures LongHistory(answer, keep)[2] == Tool("c", answer)
    ensures CutPoint(LongHistory(answer, keep), keep) == Some(3)
  {
    hide ShapeOf, UserIndexes;
    LongHistoryIs(answer, keep);
  }

  /** Both texts are at least as long as each of their messages. */
  lemma LongTexts(json: Json, ms: seq<Message>, i: nat, cut: nat)
    requires i < cut <= |ms| && ShowsContents(json)
    ensures |HistoryText(json, ms, "")| >= |ms[i].content|
    ensures |SummaryRequest(json, ms[..cut], "")| >= |ms[i].content|
  {
    hide Listed, Weight;
    HeavyMessage(json.compact, 1, ms, i);
    HeavyMessage(json.spaced, 2, ms[..cut], i);
    ListedLength(json.compact, ",", ms);
    ListedLength(json.spaced, ", ", ms[..cut]);
  }

  lemma BelowWindow(m: ContextManager)
    requires m.Valid()
    ensures (m.EffectiveInputTokens() as real * m.thresholdRatio).Floor <= m.contextWindow
  {
    var n := m.EffectiveInputTokens();
    assert n <= m.contextWindow;
    assert n as real * m.thresholdRatio <= n as real * 1.0;
  }
}
