/** The decision agents (agents/decision_maker.py): the trader turns the
    analysts' reports and the debate into a trading decision, and the risk
    manager assesses that decision against the complete analysis. Each sends
    one request and returns the decoded reply. */
module DecisionMaker {
  import opened Text
  import opened JsonValues
  import opened LlmClient

  const NotAvailable := JStr("N/A")
  /** `temperature=0.6` of `make_decision`. */
  const TraderTemperature: Tenths := 6
  /** `temperature=0.5` of `assess_risk`. */
  const RiskTemperature: Tenths := 5

  /** `d.get(key, empty) or empty` on a dictionary. */
  function Field(d: Json, key: string, empty: Json): Json
    requires d.JObj?
  {
    GetOr(d, key, empty).value
  }

  /** The values of the trader's context (agents/decision_maker.py:20-37):
      code, name, industry and price, then the `analysts` and `debate` entries
      of the complete analysis as they are (no `or {}` on those two). */
  function TraderContext(allAnalysis: Json, stockData: Json): (r: Result<seq<Json>>)
    ensures r.Ok? <==> stockData.JObj? && Field(stockData, "basic_info", EmptyDict).JObj?
                       && Field(stockData, "realtime_quote", EmptyDict).JObj? && allAnalysis.JObj?
    ensures r.Ok? ==> |r.value| == 6
                      && r.value[4] == Get(allAnalysis, "analysts", EmptyDict).value
                      && r.value[5] == Get(allAnalysis, "debate", EmptyDict).value
  {
    if !stockData.JObj? then Err(AttributeError("get"))
    else
      var basic := Field(stockData, "basic_info", EmptyDict);
      var quote := Field(stockData, "realtime_quote", EmptyDict);
      if !basic.JObj? || !quote.JObj? || !allAnalysis.JObj? then Err(AttributeError("get"))
      else
        Ok([Get(stockData, "ts_code", NotAvailable).value,
            Get(basic, "name", NotAvailable).value,
            Get(basic, "industry", NotAvailable).value,
            Get(quote, "close", NotAvailable).value,
            Get(allAnalysis, "analysts", EmptyDict).value,
            Get(allAnalysis, "debate", EmptyDict).value])
  }

  /** The values of the risk manager's context (agents/decision_maker.py:90-104):
      code, name and industry, then the trading decision and the complete
      analysis, both unchanged. */
  function RiskContext(tradingDecision: Json, allAnalysis: Json, stockData: Json): (r: Result<seq<Json>>)
    ensures r.Ok? <==> stockData.JObj? && Field(stockData, "basic_info", EmptyDict).JObj?
    ensures r.Ok? ==> |r.value| == 5 && r.value[3] == tradingDecision && r.value[4] == allAnalysis
  {
    if !stockData.JObj? then Err(AttributeError("get"))
    else
      var basic := Field(stockData, "basic_info", EmptyDict);
      if !basic.JObj? then Err(AttributeError("get"))
      else
        Ok([Get(stockData, "ts_code", NotAvailable).value,
            Get(basic, "name", NotAvailable).value,
            Get(basic, "industry", NotAvailable).value,
            tradingDecision,
            allAnalysis])
  }

  /** The trader sees exactly the two entries the pipeline puts into the
      complete analysis, and a missing entry is read as an empty dictionary;
      the risk manager sees the whole of it. */
  lemma TraderSeesAnalysis(analysts: Json, debate: Json, stockData: Json)
    requires stockData.JObj? && Field(stockData, "basic_info", EmptyDict).JObj?
    requires Field(stockData, "realtime_quote", EmptyDict).JObj?
    ensures var all := JObj([("analysts", analysts), ("debate", debate)]);
            TraderContext(all, stockData).Ok?
            && TraderContext(all, stockData).value[4] == analysts
            && TraderContext(all, stockData).value[5] == debate
    ensures TraderContext(EmptyDict, stockData).Ok?
            && TraderContext(EmptyDict, stockData).value[4] == EmptyDict
            && TraderContext(EmptyDict, stockData).value[5] == EmptyDict
  {
    var all := JObj([("analysts", analysts), ("debate", debate)]);
    assert Get(all, "analysts", EmptyDict) == Ok(analysts);
    assert Lookup(all.fields, "debate") == Some(debate) by {
      assert all.fields[1..] == [("debate", debate)];
    }
  }

  class Trader {
    const llm: DeepSeekClient

    constructor (llm: DeepSeekClient)
      ensures this.llm == llm
    {
      this.llm := llm;
    }

    /** `make_decision`: one call at temperature 0.6 when the inputs can be
        read, none otherwise; the decoded reply is returned unchanged, and
        the progress line's `.get` raises on one that is not a dictionary. */
    method MakeDecision(allAnalysis: Json, stockData: Json) returns (r: Result<Json>)
      modifies llm
      ensures TraderContext(allAnalysis, stockData).Err? ==>
                r == Err(TraderContext(allAnalysis, stockData).fault) && llm.calls == old(llm.calls)
      ensures TraderContext(allAnalysis, stockData).Ok? ==>
                llm.calls == old(llm.calls)
                             + [RoleRequest(Role.Trader, TraderContext(allAnalysis, stockData).value, TraderTemperature)]
                && r == Announced(ParseJsonResponse(llm.decode, Answer(llm.replies, |old(llm.calls)|)))
      ensures r.Ok? ==> Roles(llm.calls) == Roles(old(llm.calls)) + [Some(Role.Trader)]
    {
      match TraderContext(allAnalysis, stockData)
      case Err(f) =>
        r := Err(f);
      case Ok(values) =>
        var response := llm.AnalyzeWithSystemPrompt(Instruction(Role.Trader), Data(values), TraderTemperature);
        r := Announced(ParseJsonResponse(llm.decode, response));
        RoleAppended(old(llm.calls), Role.Trader, values, TraderTemperature);
    }
  }

  class RiskManager {
    const llm: DeepSeekClient

    constructor (llm: DeepSeekClient)
      ensures this.llm == llm
    {
      this.llm := llm;
    }

    /** `assess_risk`: one call at temperature 0.5 when the bundle can be
        read, none otherwise; same result handling as the trader. */
    method AssessRisk(tradingDecision: Json, allAnalysis: Json, stockData: Json) returns (r: Result<Json>)
      modifies llm
      ensures RiskContext(tradingDecision, allAnalysis, stockData).Err? ==>
                r == Err(RiskContext(tradingDecision, allAnalysis, stockData).fault)
                && llm.calls == old(llm.calls)
      ensures RiskContext(tradingDecision, allAnalysis, stockData).Ok? ==>
                llm.calls == old(llm.calls)
                             + [RoleRequest(Role.RiskManager, RiskContext(tradingDecision, allAnalysis, stockData).value,
                                            RiskTemperature)]
                && r == Announced(ParseJsonResponse(llm.decode, Answer(llm.replies, |old(llm.calls)|)))
      ensures r.Ok? ==> Roles(llm.calls) == Roles(old(llm.calls)) + [Some(Role.RiskManager)]
    {
      match RiskContext(tradingDecision, allAnalysis, stockData)
      case Err(f) =>
        r := Err(f);
      case Ok(values) =>
        var response := llm.AnalyzeWithSystemPrompt(Instruction(Role.RiskManager), Data(values), RiskTemperature);
        r := Announced(ParseJsonResponse(llm.decode, response));
        RoleAppended(old(llm.calls), Role.RiskManager, values, RiskTemperature);
    }
  }
}
