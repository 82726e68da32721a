/** The bull and bear researchers and the debate coordinator
    (agents/researchers.py). The researchers make one call each; the
    coordinator runs a fixed schedule of rebuttals, each seeing the debate so
    far, and then one summary call. */
module Researchers {
  import opened Text
  import opened JsonValues
  import opened LlmClient

  const NotAvailable := JStr("N/A")
  /** Rebuttals are sampled at 0.8. */
  const RebuttalTemperature: Tenths := 8

  /** `d.get(key, empty) or empty` on a dictionary. */
  function Field(d: Json, key: string, empty: Json): Json
    requires d.JObj?
  {
    GetOr(d, key, empty).value
  }

  /** The values of a researcher's context (agents/researchers.py:20-35):
      code, name, industry, then the `technical`, `fundamental` and `news`
      entries read at the top level of `analysisResults`, each defaulting to
      `{}`. */
  function ResearchContext(analysisResults: Json, stockData: Json): (r: Result<seq<Json>>)
    ensures r.Ok? <==> stockData.JObj? && Field(stockData, "basic_info", EmptyDict).JObj?
                       && analysisResults.JObj?
    ensures r.Ok? ==> |r.value| == 6
                      && r.value[3] == Get(analysisResults, "technical", EmptyDict).value
                      && r.value[4] == Get(analysisResults, "fundamental", EmptyDict).value
                      && r.value[5] == Get(analysisResults, "news", EmptyDict).value
    ensures r.Ok? && Lookup(analysisResults.fields, "technical").None? ==> r.value[3] == EmptyDict
    ensures r.Ok? && Lookup(analysisResults.fields, "fundamental").None? ==> r.value[4] == EmptyDict
    ensures r.Ok? && Lookup(analysisResults.fields, "news").None? ==> r.value[5] == EmptyDict
  {
    if !stockData.JObj? then Err(AttributeError("get"))
    else
      var basic := Field(stockData, "basic_info", EmptyDict);
      if !basic.JObj? || !analysisResults.JObj? then Err(AttributeError("get"))
      else
        Ok([Get(stockData, "ts_code", NotAvailable).value,
            Get(basic, "name", NotAvailable).value,
            Get(basic, "industry", NotAvailable).value,
            Get(analysisResults, "technical", EmptyDict).value,
            Get(analysisResults, "fundamental", EmptyDict).value,
            Get(analysisResults, "news", EmptyDict).value])
  }

  /** The pipeline hands the researchers `{'analysts': results}`, so all three
      analyst entries they read are the `{}` default, whatever the analysts said. */
  lemma NestedResultsAreUnseen(results: Json, stockData: Json)
    requires stockData.JObj? && Field(stockData, "basic_info", EmptyDict).JObj?
    ensures var r := ResearchContext(JObj([("analysts", results)]), stockData);
            r.Ok? && r.value[3..] == [EmptyDict, EmptyDict, EmptyDict]
  {
    var r := ResearchContext(JObj([("analysts", results)]), stockData);
    assert r.value[3] == EmptyDict && r.value[4] == EmptyDict && r.value[5] == EmptyDict;
  }

  class BullResearcher {
    const llm: DeepSeekClient

    constructor (llm: DeepSeekClient)
      ensures this.llm == llm
    {
      this.llm := llm;
    }

    /** `research`: one call at the default temperature, the decoded reply
        returned unchanged. */
    method Research(analysisResults: Json, stockData: Json) returns (r: Result<Json>)
      modifies llm
      ensures ResearchContext(analysisResults, stockData).Err? ==>
                r == Err(ResearchContext(analysisResults, stockData).fault) && llm.calls == old(llm.calls)
      ensures ResearchContext(analysisResults, stockData).Ok? ==>
                llm.calls == old(llm.calls)
                             + [RoleRequest(Role.BullResearcher, ResearchContext(analysisResults, stockData).value,
                                            DefaultTemperature)]
                && r == Announced(ParseJsonResponse(llm.decode, Answer(llm.replies, |old(llm.calls)|)))
      ensures r.Ok? ==> Roles(llm.calls) == Roles(old(llm.calls)) + [Some(Role.BullResearcher)]
    {
      match ResearchContext(analysisResults, stockData)
      case Err(f) =>
        r := Err(f);
      case Ok(values) =>
        var response := llm.AnalyzeWithSystemPrompt(Instruction(Role.BullResearcher), Data(values));
        r := Announced(ParseJsonResponse(llm.decode, response));
        RoleAppended(old(llm.calls), Role.BullResearcher, values, DefaultTemperature);
    }
  }

  class BearResearcher {
    const llm: DeepSeekClient

    constructor (llm: DeepSeekClient)
      ensures this.llm == llm
    {
      this.llm := llm;
    }

    /** `research`: one call at the default temperature, the decoded reply
        returned unchanged. */
    method Research(analysisResults: Json, stockData: Json) returns (r: Result<Json>)
      modifies llm
      ensures ResearchContext(analysisResults, stockData).Err? ==>
                r == Err(ResearchContext(analysisResults, stockData).fault) && llm.calls == old(llm.calls)
      ensures ResearchContext(analysisResults, stockData).Ok? ==>
                llm.calls == old(llm.calls)
                             + [RoleRequest(Role.BearResearcher, ResearchContext(analysisResults, stockData).value,
                                            DefaultTemperature)]
                && r == Announced(ParseJsonResponse(llm.decode, Answer(llm.replies, |old(llm.calls)|)))
      ensures r.Ok? ==> Roles(llm.calls) == Roles(old(llm.calls)) + [Some(Role.BearResearcher)]
    {
      match ResearchContext(analysisResults, stockData)
      case Err(f) =>
        r := Err(f);
      case Ok(values) =>
        var response := llm.AnalyzeWithSystemPrompt(Instruction(Role.BearResearcher), Data(values));
        r := Announced(ParseJsonResponse(llm.decode, response));
        RoleAppended(old(llm.calls), Role.BearResearcher, values, DefaultTemperature);
    }
  }

  /** One turn of the debate: who speaks, in which round. */
  datatype Turn = Turn(round: nat, side: Side)

  /** The turns `coordinate_debate` takes for `rounds` rounds: round 1 is the
      bear alone, every later round the bull and then the bear. */
  function Schedule(rounds: int): seq<Turn>
    decreases rounds
  {
    if rounds <= 0 then []
    else if rounds == 1 then [Turn(1, Bear)]
    else Schedule(rounds - 1) + [Turn(rounds, Bull), Turn(rounds, Bear)]
  }

  /** The speaker and round of the `i`-th turn, in closed form. */
  function TurnAt(i: nat): Turn {
    Turn((i + 1) / 2 + 1, if i % 2 == 0 then Bear else Bull)
  }

  /** The schedule has 2m-1 turns for m >= 1 rounds and none otherwise, and
      its `i`-th turn is `TurnAt(i)`. */
  lemma {:induction false} ScheduleShape(rounds: int)
    ensures |Schedule(rounds)| == (if rounds >= 1 then 2 * rounds - 1 else 0)
    ensures forall i :: 0 <= i < |Schedule(rounds)| ==> Schedule(rounds)[i] == TurnAt(i)
  {
    if rounds >= 2 {
      ScheduleShape(rounds - 1);
      var s := Schedule(rounds);
      assert s == Schedule(rounds - 1) + [Turn(rounds, Bull), Turn(rounds, Bear)];
      assert TurnAt(2 * rounds - 3) == Turn(rounds, Bull);
      assert TurnAt(2 * rounds - 2) == Turn(rounds, Bear);
    }
  }

  /** The debate opens with the bear, speakers strictly alternate, and round
      tags never decrease and stay within 1..rounds. */
  lemma ScheduleOrder(rounds: int)
    ensures |Schedule(rounds)| > 0 ==> Schedule(rounds)[0].side == Bear
    ensures forall i :: 0 < i < |Schedule(rounds)| ==>
              Schedule(rounds)[i].side != Schedule(rounds)[i - 1].side
    ensures forall i :: 0 < i < |Schedule(rounds)| ==>
              Schedule(rounds)[i - 1].round <= Schedule(rounds)[i].round
    ensures forall i :: 0 <= i < |Schedule(rounds)| ==> 1 <= Schedule(rounds)[i].round <= rounds
  {
    ScheduleShape(rounds);
    var s := Schedule(rounds);
    forall i | 0 < i < |s|
      ensures s[i].side != s[i - 1].side && s[i - 1].round <= s[i].round
    {
      assert s[i] == TurnAt(i) && s[i - 1] == TurnAt(i - 1);
    }
    forall i | 0 <= i < |s|
      ensures 1 <= s[i].round <= rounds
    {
      assert s[i] == TurnAt(i);
    }
  }

  /** One entry of `debate_history`. */
  function Entry(t: Turn, text: string): Json {
    JObj([("round", JInt(t.round)),
          ("speaker", JStr(if t.side == Bull then "bull" else "bear")),
          ("content", JStr(text))])
  }

  /** The history after `turns`, when the first rebuttal is the client's
      call number `start`: each entry holds its reply text unparsed. */
  function Transcript(turns: seq<Turn>, replies: nat -> Reply, start: nat): (h: seq<Json>)
    ensures |h| == |turns|
    ensures forall i :: 0 <= i < |h| ==> h[i] == Entry(turns[i], Answer(replies, start + i))
  {
    seq(|turns|, i requires 0 <= i < |turns| => Entry(turns[i], Answer(replies, start + i)))
  }

  /** The values of a rebuttal context (agents/researchers.py:172-183): name
      and code, own view, opponent's view, and the history so far. */
  function RebuttalRequest(header: seq<Json>, bullView: Json, bearView: Json,
                           side: Side, history: seq<Json>): Request
  {
    var (own, opponent) := if side == Bull then (bullView, bearView) else (bearView, bullView);
    RoleRequest(Rebuttal(side), header + [own, opponent, JList(history)], RebuttalTemperature)
  }

  /** The requests for `turns`: each one carries the history as it stood just
      before its own turn. */
  function RebuttalCalls(header: seq<Json>, bullView: Json, bearView: Json,
                         turns: seq<Turn>, replies: nat -> Reply, start: nat): (calls: seq<Request>)
    ensures |calls| == |turns|
  {
    var h := Transcript(turns, replies, start);
    seq(|turns|, i requires 0 <= i < |turns| => RebuttalRequest(header, bullView, bearView, turns[i].side, h[..i]))
  }

  /** The `i`-th rebuttal request carries the first `i` history entries: the
      turns before it, no more and no fewer. */
  lemma RebuttalSeesPrefix(header: seq<Json>, bullView: Json, bearView: Json,
                           turns: seq<Turn>, replies: nat -> Reply, start: nat, i: nat)
    requires |header| == 2 && i < |turns|
    ensures var calls := RebuttalCalls(header, bullView, bearView, turns, replies, start);
            var history := calls[i].messages[1].content.values[4].items;
            history == Transcript(turns, replies, start)[..i] && |history| == i
            && calls[i].messages[0].content == Instruction(Rebuttal(turns[i].side))
            && calls[i].temperature == RebuttalTemperature
  {
  }

  /** Taking one more turn extends the history by its entry and the calls by
      its request, which sees the whole earlier history. */
  lemma Extend(header: seq<Json>, bullView: Json, bearView: Json,
               turns: seq<Turn>, t: Turn, replies: nat -> Reply, start: nat)
    ensures Transcript(turns + [t], replies, start)
            == Transcript(turns, replies, start) + [Entry(t, Answer(replies, start + |turns|))]
    ensures RebuttalCalls(header, bullView, bearView, turns + [t], replies, start)
            == RebuttalCalls(header, bullView, bearView, turns, replies, start)
               + [RebuttalRequest(header, bullView, bearView, t.side, Transcript(turns, replies, start))]
  {
    var h := Transcript(turns, replies, start);
    var h' := Transcript(turns + [t], replies, start);
    assert h' == h + [Entry(t, Answer(replies, start + |turns|))];
    forall i | 0 <= i <= |turns|
      ensures h'[..i] == h[..i]
    {
    }
  }

  /** Each rebuttal sees exactly the turns before it: in every round after the
      first, the bear's request ends with the bull's entry of the same round. */
  lemma BearAnswersBull(header: seq<Json>, bullView: Json, bearView: Json,
                        rounds: int, replies: nat -> Reply, start: nat, k: nat)
    requires 2 <= k <= rounds
    ensures var s := Schedule(rounds);
            var calls := RebuttalCalls(header, bullView, bearView, s, replies, start);
            var h := Transcript(s, replies, start);
            2 * k - 2 < |s|
            && s[2 * k - 3] == Turn(k, Bull) && s[2 * k - 2] == Turn(k, Bear)
            && calls[2 * k - 2] == RebuttalRequest(header, bullView, bearView, Bear, h[..2 * k - 2])
            && h[2 * k - 3] == Entry(Turn(k, Bull), Answer(replies, start + 2 * k - 3))
  {
    ScheduleShape(rounds);
    var s := Schedule(rounds);
    var i := 2 * k - 2;
    assert i < |s|;
    assert s[i - 1] == TurnAt(i - 1) == Turn(k, Bull);
    assert s[i] == TurnAt(i) == Turn(k, Bear);
  }

  /** Name and code as `_get_rebuttal` and `_summarize_debate` read them: with
      `stock_data.get('basic_info', {})` and no `or {}`, so a `None` (or any
      non-dictionary) `basic_info` raises. */
  function DebateHeader(stockData: Json): (r: Result<seq<Json>>)
    ensures r.Ok? <==> stockData.JObj? && Get(stockData, "basic_info", EmptyDict).value.JObj?
    ensures stockData.JObj? && Lookup(stockData.fields, "basic_info") == Some(JNull) ==> r.Err?
    ensures r.Ok? ==> |r.value| == 2
  {
    if !stockData.JObj? then Err(AttributeError("get"))
    else
      match Get(Get(stockData, "basic_info", EmptyDict).value, "name", NotAvailable)
      case Err(f) => Err(f)
      case Ok(name) => Ok([name, Get(stockData, "ts_code", NotAvailable).value])
  }

  /** The summary request (agents/researchers.py:202-213): name and code, both
      views and the full history, at the default temperature. */
  function SummaryRequest(header: seq<Json>, bullView: Json, bearView: Json, history: seq<Json>): Request {
    RoleRequest(DebateModerator, header + [bullView, bearView, JList(history)], DefaultTemperature)
  }

  /** The dictionary `coordinate_debate` returns. */
  function DebateResult(bullView: Json, bearView: Json, history: seq<Json>, summary: Json): Json {
    JObj([("bull_initial", bullView), ("bear_initial", bearView),
          ("debate_rounds", JList(history)), ("debate_summary", summary)])
  }

  /** Every call of a debate of `rounds` rounds whose first call is the
      client's call number `start`: the rebuttals, then the summary. */
  function DebateCalls(header: seq<Json>, bullView: Json, bearView: Json, rounds: int,
                       replies: nat -> Reply, start: nat): (calls: seq<Request>)
    ensures |calls| == |Schedule(rounds)| + 1
  {
    var s := Schedule(rounds);
    RebuttalCalls(header, bullView, bearView, s, replies, start)
      + [SummaryRequest(header, bullView, bearView, Transcript(s, replies, start))]
  }

  /** The result of that debate: the views unchanged, the transcript, and the
      decoded reply to the call after the last rebuttal. */
  function DebateOutcome(bullView: Json, bearView: Json, rounds: int, replies: nat -> Reply,
                         decode: string -> Option<Json>, start: nat): Json
  {
    var s := Schedule(rounds);
    DebateResult(bullView, bearView, Transcript(s, replies, start),
                 ParseJsonResponse(decode, Answer(replies, start + |s|)))
  }

  /** The debate's calls and result, spelled out turn by turn. */
  lemma DebateUnfold(header: seq<Json>, bullView: Json, bearView: Json, rounds: int, replies: nat -> Reply,
                     decode: string -> Option<Json>, start: nat)
    ensures DebateCalls(header, bullView, bearView, rounds, replies, start)
            == RebuttalCalls(header, bullView, bearView, Schedule(rounds), replies, start)
               + [SummaryRequest(header, bullView, bearView, Transcript(Schedule(rounds), replies, start))]
    ensures DebateOutcome(bullView, bearView, rounds, replies, decode, start)
            == DebateResult(bullView, bearView, Transcript(Schedule(rounds), replies, start),
                            ParseJsonResponse(decode, Answer(replies, start + |Schedule(rounds)|)))
  {
  }

  /** Who speaks in a debate of `rounds` rounds: the rebuttals in schedule
      order, then the moderator. */
  function DebateRoles(rounds: int): (roles: seq<Option<Role>>)
    ensures |roles| == |Schedule(rounds)| + 1 && roles[|Schedule(rounds)|] == Some(DebateModerator)
  {
    var s := Schedule(rounds);
    seq(|s|, i requires 0 <= i < |s| => Some(Rebuttal(s[i].side))) + [Some(DebateModerator)]
  }

  /** The debate's calls speak as `DebateRoles`. */
  lemma DebateCallRoles(header: seq<Json>, bullView: Json, bearView: Json, rounds: int,
                        replies: nat -> Reply, start: nat)
    ensures Roles(DebateCalls(header, bullView, bearView, rounds, replies, start)) == DebateRoles(rounds)
  {
    var s := Schedule(rounds);
    var calls := DebateCalls(header, bullView, bearView, rounds, replies, start);
    var rebuttals := RebuttalCalls(header, bullView, bearView, s, replies, start);
    forall i | 0 <= i < |s|
      ensures RoleOf(calls[i]) == Some(Rebuttal(s[i].side))
    {
      assert calls[i] == rebuttals[i];
    }
  }

  class DebateCoordinator {
    const llm: DeepSeekClient

    constructor (llm: DeepSeekClient)
      ensures this.llm == llm
    {
      this.llm := llm;
    }

    /** `coordinate_debate`: the rebuttals of `Schedule(maxRounds)` in order,
        each seeing the history before it, then exactly one summary call whose
        decoded reply (dictionary or not) becomes `debate_summary`. A
        `basic_info` that is not a dictionary raises before any call. */
    method CoordinateDebate(bullView: Json, bearView: Json, stockData: Json, maxRounds: int)
      returns (r: Result<Json>)
      modifies llm
      ensures DebateHeader(stockData).Err? ==>
                r == Err(DebateHeader(stockData).fault) && llm.calls == old(llm.calls)
      ensures DebateHeader(stockData).Ok? ==>
                llm.calls == old(llm.calls) + DebateCalls(DebateHeader(stockData).value, bullView, bearView,
                                                          maxRounds, llm.replies, |old(llm.calls)|)
                && r == Ok(DebateOutcome(bullView, bearView, maxRounds, llm.replies, llm.decode, |old(llm.calls)|))
      ensures r.Ok? ==> Roles(llm.calls) == Roles(old(llm.calls)) + DebateRoles(maxRounds)
    {
      if DebateHeader(stockData).Err? {
        return Err(DebateHeader(stockData).fault);
      }
      var header := DebateHeader(stockData).value;
      var outcome := Debate(header, bullView, bearView, maxRounds);
      r := Ok(outcome);
      DebateCallRoles(header, bullView, bearView, maxRounds, llm.replies, |old(llm.calls)|);
      RolesAppend(old(llm.calls), DebateCalls(header, bullView, bearView, maxRounds, llm.replies, |old(llm.calls)|));
    }

    /** The debate proper, once the stock's name and code are known. */
    method Debate(header: seq<Json>, bullView: Json, bearView: Json, maxRounds: int)
      returns (outcome: Json)
      modifies llm
      ensures llm.calls == old(llm.calls) + DebateCalls(header, bullView, bearView,
                                                        maxRounds, llm.replies, |old(llm.calls)|)
      ensures outcome == DebateOutcome(bullView, bearView, maxRounds, llm.replies, llm.decode, |old(llm.calls)|)
    {
      ghost var start := |llm.calls|;
      var history := DebateRounds(header, bullView, bearView, maxRounds);
      ghost var rebuttals := llm.calls;
      var summary := SummarizeDebate(header, bullView, bearView, history);
      outcome := DebateResult(bullView, bearView, history, summary);
      DebateUnfold(header, bullView, bearView, maxRounds, llm.replies, llm.decode, start);
      assert llm.calls == old(llm.calls) + DebateCalls(header, bullView, bearView, maxRounds, llm.replies, start) by {
        assert llm.calls == rebuttals + [SummaryRequest(header, bullView, bearView, history)];
      }
    }

    /** The `for round_num` loop of `coordinate_debate`: the rebuttals of
        `Schedule(maxRounds)`, each call seeing the history before its turn. */
    method DebateRounds(header: seq<Json>, bullView: Json, bearView: Json, maxRounds: int)
      returns (history: seq<Json>)
      modifies llm
      ensures history == Transcript(Schedule(maxRounds), llm.replies, |old(llm.calls)|)
      ensures llm.calls == old(llm.calls)
                           + RebuttalCalls(header, bullView, bearView, Schedule(maxRounds), llm.replies, |old(llm.calls)|)
    {
      ghost var start := |llm.calls|;
      history := [];
      var roundNum := 1;
      while roundNum <= maxRounds
        invariant 1 <= roundNum <= (if maxRounds >= 1 then maxRounds + 1 else 1)
        invariant history == Transcript(Schedule(roundNum - 1), llm.replies, start)
        invariant llm.calls == old(llm.calls)
                               + RebuttalCalls(header, bullView, bearView, Schedule(roundNum - 1), llm.replies, start)
      {
        ghost var taken := Schedule(roundNum - 1);
        if roundNum > 1 {
          history := TakeTurn(header, bullView, bearView, Turn(roundNum, Bull), history, old(llm.calls), taken, start);
          taken := taken + [Turn(roundNum, Bull)];
        }
        history := TakeTurn(header, bullView, bearView, Turn(roundNum, Bear), history, old(llm.calls), taken, start);
        taken := taken + [Turn(roundNum, Bear)];
        assert taken == Schedule(roundNum);
        roundNum := roundNum + 1;
      }
      assert Schedule(roundNum - 1) == Schedule(maxRounds);
    }

    /** One step of the debate loop: the speaker's rebuttal, appended to the
        history. */
    method TakeTurn(header: seq<Json>, bullView: Json, bearView: Json, t: Turn, history: seq<Json>,
                    ghost base: seq<Request>, ghost taken: seq<Turn>, ghost start: nat)
      returns (extended: seq<Json>)
      requires |base| == start
      requires history == Transcript(taken, llm.replies, start)
      requires llm.calls == base + RebuttalCalls(header, bullView, bearView, taken, llm.replies, start)
      modifies llm
      ensures extended == Transcript(taken + [t], llm.replies, start)
      ensures llm.calls == base + RebuttalCalls(header, bullView, bearView, taken + [t], llm.replies, start)
    {
      Extend(header, bullView, bearView, taken, t, llm.replies, start);
      var (own, opponent) := if t.side == Bull then (bullView, bearView) else (bearView, bullView);
      var rebuttal := GetRebuttal(header, t.side, own, opponent, history);
      extended := history + [Entry(t, rebuttal)];
    }

    /** `_get_rebuttal`: one call at 0.8; the reply text is kept unparsed. */
    method GetRebuttal(header: seq<Json>, side: Side, ownView: Json, opponentView: Json, history: seq<Json>)
      returns (rebuttal: string)
      modifies llm
      ensures llm.calls == old(llm.calls)
                           + [RoleRequest(Rebuttal(side), header + [ownView, opponentView, JList(history)],
                                          RebuttalTemperature)]
      ensures rebuttal == Answer(llm.replies, |old(llm.calls)|)
    {
      rebuttal := llm.AnalyzeWithSystemPrompt(Instruction(Rebuttal(side)),
                                              Data(header + [ownView, opponentView, JList(history)]),
                                              RebuttalTemperature);
    }

    /** `_summarize_debate`: one call at the default temperature, decoded. */
    method SummarizeDebate(header: seq<Json>, bullView: Json, bearView: Json, history: seq<Json>)
      returns (summary: Json)
      modifies llm
      ensures llm.calls == old(llm.calls) + [SummaryRequest(header, bullView, bearView, history)]
      ensures summary == ParseJsonResponse(llm.decode, Answer(llm.replies, |old(llm.calls)|))
    {
      var response := llm.AnalyzeWithSystemPrompt(Instruction(DebateModerator),
                                                  Data(header + [bullView, bearView, JList(history)]));
      summary := ParseJsonResponse(llm.decode, response);
    }
  }
}
