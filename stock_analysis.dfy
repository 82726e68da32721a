/** The analysis pipeline and the batch runner (main.py:29-200): one object
    holding the data client, the model client, the agents and the report
    generator, all sharing one model client and one clock. A stock is
    analysed in six stages; a batch analyses each code in turn, drops the
    codes whose analysis raised, and summarises the rest. */
module StockAnalysis {
  import opened Text
  import opened JsonValues
  import opened LlmClient
  import opened Market
  import opened Clocks
  import opened Analysts
  import opened Researchers
  import opened DecisionMaker
  import opened Reports
  import opened ReportSummary
  import opened ReportIndex
  import opened ReportGeneration

  /** `MAX_DEBATE_ROUNDS` (config/config.py:41). */
  const MaxDebateRounds := 2
  /** `DEEPSEEK_MODEL` (config/config.py:16). */
  const DeepSeekModel := "deepseek-chat"
  /** The report generator's default output folder. */
  const ReportDir := "reports"

  /** The keys of a finished analysis, in insertion order; `duration_seconds`
      is not modelled. */
  const FinalKeys := ["stock_data", "analysis", "decision", "risk_assessment", "analysis_time", "report_file"]

  /** `analysis_results` (main.py:102-106). */
  function AnalystResults(technical: Json, fundamental: Json, news: Json): Json {
    JObj([("technical", technical), ("fundamental", fundamental), ("news", news)])
  }

  /** What the researchers are handed (main.py:113, 116). */
  function Nested(analysisResults: Json): Json {
    JObj([("analysts", analysisResults)])
  }

  /** `all_analysis` (main.py:127-130). */
  function AllAnalysis(analysisResults: Json, debate: Json): Json {
    JObj([("analysts", analysisResults), ("debate", debate)])
  }

  /** `final_result` as the report generator receives it (main.py:146-153). */
  function FinalResult(stockData: Json, allAnalysis: Json, decision: Json, risk: Json, analysisTime: string): Json {
    JObj([("stock_data", stockData), ("analysis", allAnalysis), ("decision", decision),
          ("risk_assessment", risk), ("analysis_time", JStr(analysisTime))])
  }

  /** `final_result['report_file'] = report_file` (main.py:156). */
  function Filed(result: Json, reportFile: string): Json
    requires result.JObj?
  {
    JObj(result.fields + [("report_file", JStr(reportFile))])
  }

  /** The analysts' results hold the three analysts' answers under their
      own keys, and the researchers' argument holds them under 'analysts'. */
  lemma AnalystResultsShape(technical: Json, fundamental: Json, news: Json)
    ensures var r := AnalystResults(technical, fundamental, news);
            && r.JObj? && Keys(r.fields) == ["technical", "fundamental", "news"]
            && Get(r, "technical", JNull) == Ok(technical) && Get(r, "fundamental", JNull) == Ok(fundamental)
            && Get(r, "news", JNull) == Ok(news)
    ensures var r := Nested(AnalystResults(technical, fundamental, news));
            && r.JObj? && Keys(r.fields) == ["analysts"]
            && Get(r, "analysts", JNull) == Ok(AnalystResults(technical, fundamental, news))
  {
    var fields := [("technical", technical), ("fundamental", fundamental), ("news", news)];
    LookupFirst(fields, 1, "fundamental");
    LookupFirst(fields, 2, "news");
  }

  /** all_analysis holds exactly the analysts' results and the debate. */
  lemma AllAnalysisShape(analysisResults: Json, debate: Json)
    ensures var r := AllAnalysis(analysisResults, debate);
            && r.JObj? && Keys(r.fields) == ["analysts", "debate"]
            && Get(r, "analysts", JNull) == Ok(analysisResults) && Get(r, "debate", JNull) == Ok(debate)
  {
    LookupFirst([("analysts", analysisResults), ("debate", debate)], 1, "debate");
  }

  /** The final result holds each of its five parts under its own key. */
  lemma FinalResultShape(stockData: Json, allAnalysis: Json, decision: Json, risk: Json, analysisTime: string)
    ensures var r := FinalResult(stockData, allAnalysis, decision, risk, analysisTime);
            && r.JObj? && Keys(r.fields) == FinalKeys[..5]
            && Get(r, "stock_data", JNull) == Ok(stockData) && Get(r, "analysis", JNull) == Ok(allAnalysis)
            && Get(r, "decision", JNull) == Ok(decision) && Get(r, "risk_assessment", JNull) == Ok(risk)
            && Get(r, "analysis_time", JNull) == Ok(JStr(analysisTime))
  {
    var fields := [("stock_data", stockData), ("analysis", allAnalysis), ("decision", decision),
                   ("risk_assessment", risk), ("analysis_time", JStr(analysisTime))];
    LookupFirst(fields, 1, "analysis");
    LookupFirst(fields, 2, "decision");
    LookupFirst(fields, 3, "risk_assessment");
    LookupFirst(fields, 4, "analysis_time");
  }

  /** Filing adds 'report_file' as the last key, where a lookup finds the
      path when the key was new, and leaves every key already present with
      its value. */
  lemma FiledKeepsFields(result: Json, reportFile: string)
    requires result.JObj?
    ensures var r := Filed(result, reportFile);
            && r.JObj? && Keys(r.fields) == Keys(result.fields) + ["report_file"]
            && (Lookup(result.fields, "report_file").None? ==> Get(r, "report_file", JNull) == Ok(JStr(reportFile)))
    ensures forall key {:trigger Lookup(result.fields, key)} ::
              Lookup(result.fields, key).Some? ==> Lookup(Filed(result, reportFile).fields, key) == Lookup(result.fields, key)
  {
    var entry := ("report_file", JStr(reportFile));
    LookupsKept(result.fields, entry);
    if Lookup(result.fields, "report_file").None? {
      LookupAppended(result.fields, entry);
    }
  }

  /** The decoded reply to the client's call number `i`. */
  function Reading(llm: DeepSeekClient, i: nat): Json {
    ParseJsonResponse(llm.decode, Answer(llm.replies, i))
  }

  /** Who speaks in stage 2: the technical and the fundamental analyst, then
      the news analyst only when there is news to read. */
  function AnalystRoles(asksNews: bool): seq<Option<Role>> {
    [Some(Role.TechnicalAnalyst), Some(Role.FundamentalAnalyst)] + (if asksNews then [Some(Role.NewsAnalyst)] else [])
  }

  /** Who speaks in one whole analysis, stage by stage: the analysts, both
      researchers, the bear's first-round rebuttal, the bull's and the bear's
      second-round rebuttals, the moderator, the trader, the risk manager. */
  function PipelineRoles(asksNews: bool): seq<Option<Role>> {
    AnalystRoles(asksNews) + WeighingRoleList
  }

  /** Who speaks in stages 3 to 5: both researchers, the three rebuttals and
      the moderator, then the trader and the risk manager. */
  const WeighingRoleList: seq<Option<Role>> :=
    [Some(BullResearcher), Some(BearResearcher),
     Some(Rebuttal(Bear)), Some(Rebuttal(Bull)), Some(Rebuttal(Bear)), Some(DebateModerator)]
    + [Some(Role.Trader), Some(Role.RiskManager)]

  /** The values a context fills in; the request of a stage that fails to
      build its context is never sent, so it is left empty. */
  function Values(context: Result<seq<Json>>): seq<Json> {
    if context.Ok? then context.value else []
  }

  /** How many calls stage 2 makes: two, or three when there is news. */
  function AnalystCount(stockData: Json): nat {
    if AsksNews(stockData) then 3 else 2
  }

  /** Stage 2 succeeds from the client's call `n` on: every analyst can read
      the bundle and every reply it reads decodes to a dictionary. */
  predicate AnalystsSucceed(llm: DeepSeekClient, stockData: Json, n: nat) {
    && TechnicalContext(stockData).Ok? && Reading(llm, n).JObj?
    && FundamentalContext(stockData).Ok? && Reading(llm, n + 1).JObj?
    && NewsContext(stockData).Ok? && (AsksNews(stockData) ==> Reading(llm, n + 2).JObj?)
  }

  /** The requests stage 2 sends: each analyst's context, in order. */
  function AnalystCalls(stockData: Json): (calls: seq<Request>)
    ensures |calls| == AnalystCount(stockData)
  {
    [RoleRequest(Role.TechnicalAnalyst, Values(TechnicalContext(stockData)), DefaultTemperature)]
    + [RoleRequest(Role.FundamentalAnalyst, Values(FundamentalContext(stockData)), DefaultTemperature)]
    + (if AsksNews(stockData)
       then [RoleRequest(Role.NewsAnalyst, NewsContext(stockData).value.values, DefaultTemperature)]
       else [])
  }

  /** `analysis_results`: the decoded replies to calls `n` and `n + 1`, and
      to call `n + 2` or the neutral answer for the news. */
  function AnalystOutcome(llm: DeepSeekClient, stockData: Json, n: nat): Json {
    AnalystResults(Reading(llm, n), Reading(llm, n + 1),
                   if AsksNews(stockData) then Reading(llm, n + 2) else NeutralNews)
  }

  /** How many calls stage 3 makes: both researchers, three rebuttals and
      the moderator. */
  const DebateCallCount: nat := 6

  /** Stage 3 succeeds from call `n` on: both researchers can read their
      input and answer with dictionaries, and the debate can name the stock. */
  predicate DebateSucceeds(llm: DeepSeekClient, analysisResults: Json, stockData: Json, n: nat) {
    && ResearchContext(Nested(analysisResults), stockData).Ok?
    && Reading(llm, n).JObj? && Reading(llm, n + 1).JObj?
    && DebateHeader(stockData).Ok?
  }

  /** The requests stage 3 sends: the bull's and the bear's, both on the
      results one level down, then the debate on their two views. */
  function DebateStageCalls(llm: DeepSeekClient, analysisResults: Json, stockData: Json, n: nat): (calls: seq<Request>)
    ensures |calls| == DebateCallCount
  {
    var context := Values(ResearchContext(Nested(analysisResults), stockData));
    DebateLength();
    [RoleRequest(Role.BullResearcher, context, DefaultTemperature)]
    + [RoleRequest(Role.BearResearcher, context, DefaultTemperature)]
    + DebateCalls(Values(DebateHeader(stockData)), Reading(llm, n), Reading(llm, n + 1), MaxDebateRounds,
                  llm.replies, n + 2)
  }

  /** `debate_result`: the debate between the views decoded from calls `n`
      and `n + 1`. */
  function DebateStageOutcome(llm: DeepSeekClient, n: nat): Json {
    DebateOutcome(Reading(llm, n), Reading(llm, n + 1), MaxDebateRounds, llm.replies, llm.decode, n + 2)
  }

  /** Stages 4 and 5 succeed from call `n` on: the trader can read its input
      and answers with a dictionary, and so does the risk manager, which is
      handed that answer. */
  predicate DecisionSucceeds(llm: DeepSeekClient, allAnalysis: Json, stockData: Json, n: nat) {
    && TraderContext(allAnalysis, stockData).Ok? && Reading(llm, n).JObj?
    && RiskContext(Reading(llm, n), allAnalysis, stockData).Ok? && Reading(llm, n + 1).JObj?
  }

  /** The requests of stages 4 and 5. */
  function DecisionCalls(llm: DeepSeekClient, allAnalysis: Json, stockData: Json, n: nat): (calls: seq<Request>)
    ensures |calls| == 2
  {
    [RoleRequest(Role.Trader, Values(TraderContext(allAnalysis, stockData)), TraderTemperature),
     RoleRequest(Role.RiskManager, Values(RiskContext(Reading(llm, n), allAnalysis, stockData)), RiskTemperature)]
  }

  /** Stages 3 to 5 succeed from call `d` on, on the analysts' results:
      the debate, then the decision on the analysis it completes. */
  predicate WeighingSucceeds(llm: DeepSeekClient, analysisResults: Json, stockData: Json, d: nat) {
    && DebateSucceeds(llm, analysisResults, stockData, d)
    && DecisionSucceeds(llm, AllAnalysis(analysisResults, DebateStageOutcome(llm, d)), stockData, d + DebateCallCount)
  }

  /** What stages 3 to 5 produce from call `d` on: `all_analysis`, the
      trading decision and the risk assessment. */
  function Weighing(llm: DeepSeekClient, analysisResults: Json, d: nat): (Json, Json, Json) {
    var e := d + DebateCallCount;
    (AllAnalysis(analysisResults, DebateStageOutcome(llm, d)), Reading(llm, e), Reading(llm, e + 1))
  }

  /** The requests of stages 3 to 5, in order. */
  function WeighingCalls(llm: DeepSeekClient, analysisResults: Json, stockData: Json, d: nat): (calls: seq<Request>)
    ensures |calls| == DebateCallCount + 2
  {
    DebateStageCalls(llm, analysisResults, stockData, d)
      + DecisionCalls(llm, AllAnalysis(analysisResults, DebateStageOutcome(llm, d)), stockData, d + DebateCallCount)
  }

  /** Stages 2 to 5 succeed from call `n` on. */
  predicate DeliberationSucceeds(llm: DeepSeekClient, stockData: Json, n: nat) {
    && AnalystsSucceed(llm, stockData, n)
    && WeighingSucceeds(llm, AnalystOutcome(llm, stockData, n), stockData, n + AnalystCount(stockData))
  }

  /** What stages 2 to 5 produce from call `n` on. */
  function Deliberation(llm: DeepSeekClient, stockData: Json, n: nat): (Json, Json, Json) {
    Weighing(llm, AnalystOutcome(llm, stockData, n), n + AnalystCount(stockData))
  }

  /** Every request of stages 2 to 5, in order. */
  function DeliberationCalls(llm: DeepSeekClient, stockData: Json, n: nat): (calls: seq<Request>)
    ensures |calls| == AnalystCount(stockData) + DebateCallCount + 2
  {
    AnalystCalls(stockData) + WeighingCalls(llm, AnalystOutcome(llm, stockData, n), stockData, n + AnalystCount(stockData))
  }

  /** The two researchers of stage 3 are each handed three empty analyst
      views, whatever the analysts answered. */
  lemma ResearchersSeeNoAnalysis(llm: DeepSeekClient, analysisResults: Json, stockData: Json, n: nat)
    requires ResearchContext(Nested(analysisResults), stockData).Ok? && DebateHeader(stockData).Ok?
    ensures var calls := DebateStageCalls(llm, analysisResults, stockData, n);
            && RoleOf(calls[0]) == Some(Role.BullResearcher) && RoleOf(calls[1]) == Some(Role.BearResearcher)
            && calls[0].messages[1].content.values[3..] == [EmptyDict, EmptyDict, EmptyDict]
            && calls[1].messages[1].content.values[3..] == [EmptyDict, EmptyDict, EmptyDict]
  {
    NestedResultsAreUnseen(analysisResults, stockData);
  }

  /** Stages 4 and 5: the trader reads the analysts' results and the debate
      as they were produced, and the risk manager reads the trader's decision
      and the whole analysis. */
  lemma DecisionSeesAnalysis(llm: DeepSeekClient, analysisResults: Json, debate: Json, stockData: Json, n: nat)
    requires var all := AllAnalysis(analysisResults, debate);
             TraderContext(all, stockData).Ok? && RiskContext(Reading(llm, n), all, stockData).Ok?
    ensures var calls := DecisionCalls(llm, AllAnalysis(analysisResults, debate), stockData, n);
            && RoleOf(calls[0]) == Some(Role.Trader) && RoleOf(calls[1]) == Some(Role.RiskManager)
            && calls[0].messages[1].content.values[4] == analysisResults
            && calls[0].messages[1].content.values[5] == debate
            && calls[1].messages[1].content.values[3] == Reading(llm, n)
            && calls[1].messages[1].content.values[4] == AllAnalysis(analysisResults, debate)
  {
    TraderSeesAnalysis(analysisResults, debate, stockData);
  }

  /** The requests of stages 2 to 5 are those of the analysts, then those
      of stages 3 to 5. */
  lemma DeliberationCallsInStages(llm: DeepSeekClient, stockData: Json, n: nat)
    ensures var calls := DeliberationCalls(llm, stockData, n);
            var k := AnalystCount(stockData);
            && calls[..k] == AnalystCalls(stockData)
            && calls[k..] == WeighingCalls(llm, AnalystOutcome(llm, stockData, n), stockData, n + k)
  {
    TwoParts(DeliberationCalls(llm, stockData, n), AnalystCalls(stockData),
             WeighingCalls(llm, AnalystOutcome(llm, stockData, n), stockData, n + AnalystCount(stockData)));
  }

  /** The requests of stages 3 to 5 are those of the debate stage, then
      those of the decision on the analysis it completes. */
  lemma WeighingCallsInStages(llm: DeepSeekClient, analysisResults: Json, stockData: Json, d: nat)
    ensures var calls := WeighingCalls(llm, analysisResults, stockData, d);
            && calls[..DebateCallCount] == DebateStageCalls(llm, analysisResults, stockData, d)
            && calls[DebateCallCount..]
               == DecisionCalls(llm, Weighing(llm, analysisResults, d).0, stockData, d + DebateCallCount)
  {
    TwoParts(WeighingCalls(llm, analysisResults, stockData, d), DebateStageCalls(llm, analysisResults, stockData, d),
             DecisionCalls(llm, AllAnalysis(analysisResults, DebateStageOutcome(llm, d)), stockData, d + DebateCallCount));
  }

  /** The two parts of a concatenation, recovered by slicing. */
  lemma TwoParts<T>(s: seq<T>, a: seq<T>, b: seq<T>)
    requires s == a + b
    ensures s[..|a|] == a && s[|a|..] == b
  {
  }

  /** Stages 2 to 5 are stage 2 followed by stages 3 to 5. */
  lemma DeliberationOfStages(llm: DeepSeekClient, stockData: Json, n: nat, analysisResults: Json, d: nat)
    requires analysisResults == AnalystOutcome(llm, stockData, n) && d == n + AnalystCount(stockData)
    ensures DeliberationSucceeds(llm, stockData, n)
            <==> AnalystsSucceed(llm, stockData, n) && WeighingSucceeds(llm, analysisResults, stockData, d)
    ensures Deliberation(llm, stockData, n) == Weighing(llm, analysisResults, d)
    ensures DeliberationCalls(llm, stockData, n) == AnalystCalls(stockData) + WeighingCalls(llm, analysisResults, stockData, d)
  {
  }

  /** Both researchers and the whole debate make `DebateCallCount` calls. */
  lemma DebateLength()
    ensures |Schedule(MaxDebateRounds)| + 3 == DebateCallCount
  {
    DebateOrder();
  }

  /** With `MaxDebateRounds` rounds the debate has three rebuttals: the bear
      alone in round 1, then the bull and the bear. */
  lemma DebateOrder()
    ensures DebateRoles(MaxDebateRounds)
            == [Some(Rebuttal(Bear)), Some(Rebuttal(Bull)), Some(Rebuttal(Bear)), Some(DebateModerator)]
  {
    assert Schedule(MaxDebateRounds) == [Turn(1, Bear), Turn(2, Bull), Turn(2, Bear)] by {
      assert Schedule(1) == [Turn(1, Bear)];
    }
  }

  /** The log of stage 2, request by request: the technical and the
      fundamental analyst's, then the news analyst's only when it asks. */
  lemma AnalystsLogged(stockData: Json, c0: seq<Request>, c1: seq<Request>, c2: seq<Request>, c3: seq<Request>)
    requires TechnicalContext(stockData).Ok? && FundamentalContext(stockData).Ok? && NewsContext(stockData).Ok?
    requires c1 == c0 + [RoleRequest(Role.TechnicalAnalyst, TechnicalContext(stockData).value, DefaultTemperature)]
    requires c2 == c1 + [RoleRequest(Role.FundamentalAnalyst, FundamentalContext(stockData).value, DefaultTemperature)]
    requires AsksNews(stockData) ==>
               c3 == c2 + [RoleRequest(Role.NewsAnalyst, NewsContext(stockData).value.values, DefaultTemperature)]
    requires !AsksNews(stockData) ==> c3 == c2
    ensures c3 == c0 + AnalystCalls(stockData)
  {
    var technical := [RoleRequest(Role.TechnicalAnalyst, TechnicalContext(stockData).value, DefaultTemperature)];
    var fundamental := [RoleRequest(Role.FundamentalAnalyst, FundamentalContext(stockData).value, DefaultTemperature)];
    var news := if AsksNews(stockData)
                then [RoleRequest(Role.NewsAnalyst, NewsContext(stockData).value.values, DefaultTemperature)]
                else [];
    assert c3 == c2 + news;
    Chain(c0, c1, c2, technical, fundamental);
    Chain(c0, c2, c3, technical + fundamental, news);
  }

  /** An agent whose call fails either could not read its input or was
      answered with something other than a dictionary. */
  lemma Refused<T>(llm: DeepSeekClient, context: Result<T>, n: nat, r: Result<Json>)
    requires r.Err?
    requires context.Ok? ==> r == Announced(ParseJsonResponse(llm.decode, Answer(llm.replies, n)))
    ensures !(context.Ok? && Reading(llm, n).JObj?)
  {
  }

  /** The news analyst fails only when it cannot read the bundle, or asks and
      is answered with something other than a dictionary. */
  lemma NewsRefused(llm: DeepSeekClient, stockData: Json, n: nat, r: Result<Json>)
    requires r.Err?
    requires NewsContext(stockData) == Ok(Skip(NeutralNews)) ==> r == Ok(NeutralNews)
    requires AsksNews(stockData) ==> r == Announced(ParseJsonResponse(llm.decode, Answer(llm.replies, n)))
    ensures !(NewsContext(stockData).Ok? && (AsksNews(stockData) ==> Reading(llm, n).JObj?))
  {
  }

  /** Stage 2 succeeded when every analyst answered with a dictionary: its
      log is the analysts' requests, its results the decoded replies, or the
      neutral answer for the news. */
  lemma AnalystsAnswered(llm: DeepSeekClient, stockData: Json, technical: Result<Json>, fundamental: Result<Json>,
                         news: Result<Json>, c0: seq<Request>, c1: seq<Request>, c2: seq<Request>, c3: seq<Request>)
    requires technical.Ok? && fundamental.Ok? && news.Ok?
    requires TechnicalContext(stockData).Err? ==> technical == Err(TechnicalContext(stockData).fault)
    requires TechnicalContext(stockData).Ok? ==>
               c1 == c0 + [RoleRequest(Role.TechnicalAnalyst, TechnicalContext(stockData).value, DefaultTemperature)]
               && technical == Announced(ParseJsonResponse(llm.decode, Answer(llm.replies, |c0|)))
    requires FundamentalContext(stockData).Err? ==> fundamental == Err(FundamentalContext(stockData).fault)
    requires FundamentalContext(stockData).Ok? ==>
               c2 == c1 + [RoleRequest(Role.FundamentalAnalyst, FundamentalContext(stockData).value, DefaultTemperature)]
               && fundamental == Announced(ParseJsonResponse(llm.decode, Answer(llm.replies, |c1|)))
    requires NewsContext(stockData).Err? ==> news == Err(NewsContext(stockData).fault)
    requires NewsContext(stockData) == Ok(Skip(NeutralNews)) ==> news == Ok(NeutralNews) && c3 == c2
    requires NewsContext(stockData).Ok? && NewsContext(stockData).value.Ask? ==>
               c3 == c2 + [RoleRequest(Role.NewsAnalyst, NewsContext(stockData).value.values, DefaultTemperature)]
               && news == Announced(ParseJsonResponse(llm.decode, Answer(llm.replies, |c2|)))
    ensures AnalystsSucceed(llm, stockData, |c0|)
    ensures c3 == c0 + AnalystCalls(stockData)
    ensures AnalystResults(technical.value, fundamental.value, news.value) == AnalystOutcome(llm, stockData, |c0|)
  {
    assert TechnicalContext(stockData).Ok? && FundamentalContext(stockData).Ok? && NewsContext(stockData).Ok?;
    assert |c1| == |c0| + 1 && |c2| == |c0| + 2;
    assert technical.value == Reading(llm, |c0|) && fundamental.value == Reading(llm, |c0| + 1);
    assert news.value == if AsksNews(stockData) then Reading(llm, |c0| + 2) else NeutralNews;
    AnalystsLogged(stockData, c0, c1, c2, c3);
  }

  /** The log of stage 3, request by request: the bull's and the bear's on
      one context, then the debate's. */
  lemma DebateLogged(c0: seq<Request>, c1: seq<Request>, c2: seq<Request>, c3: seq<Request>, context: seq<Json>,
                     debate: seq<Request>)
    requires c1 == c0 + [RoleRequest(Role.BullResearcher, context, DefaultTemperature)]
    requires c2 == c1 + [RoleRequest(Role.BearResearcher, context, DefaultTemperature)]
    requires c3 == c2 + debate
    ensures c3 == c0 + ([RoleRequest(Role.BullResearcher, context, DefaultTemperature)]
                        + [RoleRequest(Role.BearResearcher, context, DefaultTemperature)] + debate)
  {
    Chain(c0, c1, c2, [RoleRequest(Role.BullResearcher, context, DefaultTemperature)],
          [RoleRequest(Role.BearResearcher, context, DefaultTemperature)]);
    Chain(c0, c2, c3, [RoleRequest(Role.BullResearcher, context, DefaultTemperature)]
                      + [RoleRequest(Role.BearResearcher, context, DefaultTemperature)], debate);
  }

  /** Stage 3 succeeded when both researchers answered with dictionaries and
      the debate could name the stock: its log and result are those of the
      two views. */
  lemma DebateAnswered(llm: DeepSeekClient, analysisResults: Json, stockData: Json, n: nat, bull: Json, bear: Json,
                       c0: seq<Request>, c3: seq<Request>)
    requires ResearchContext(Nested(analysisResults), stockData).Ok? && DebateHeader(stockData).Ok?
    requires Ok(bull) == Announced(ParseJsonResponse(llm.decode, Answer(llm.replies, n)))
    requires Ok(bear) == Announced(ParseJsonResponse(llm.decode, Answer(llm.replies, n + 1)))
    requires var context := ResearchContext(Nested(analysisResults), stockData).value;
             c3 == c0 + ([RoleRequest(Role.BullResearcher, context, DefaultTemperature)]
                         + [RoleRequest(Role.BearResearcher, context, DefaultTemperature)]
                         + DebateCalls(DebateHeader(stockData).value, bull, bear, MaxDebateRounds, llm.replies, n + 2))
    ensures DebateSucceeds(llm, analysisResults, stockData, n)
    ensures c3 == c0 + DebateStageCalls(llm, analysisResults, stockData, n)
    ensures DebateOutcome(bull, bear, MaxDebateRounds, llm.replies, llm.decode, n + 2) == DebateStageOutcome(llm, n)
  {
  }

  lemma Chain<T>(x0: seq<T>, x1: seq<T>, x2: seq<T>, a: seq<T>, b: seq<T>)
    requires x1 == x0 + a && x2 == x1 + b
    ensures x2 == x0 + (a + b)
  {
  }

  /** The finished result: the report generator's input plus the report
      path, which the summary page can always read. */
  lemma FiledResult(stockData: Json, allAnalysis: Json, decision: Json, risk: Json, analysisTime: string,
                    reportFile: string)
    requires MarkdownFault(FinalResult(stockData, allAnalysis, decision, risk, analysisTime)).None?
    ensures var result := Filed(FinalResult(stockData, allAnalysis, decision, risk, analysisTime), reportFile);
            && Summarizable(result)
            && Keys(result.fields) == FinalKeys
            && Part(result, "stock_data") == stockData
            && Part(result, "analysis") == allAnalysis
            && Get(result, "analysis_time", NA) == Ok(JStr(analysisTime))
            && Get(result, "report_file", NA) == Ok(JStr(reportFile))
            && JObj(result.fields[..5]) == FinalResult(stockData, allAnalysis, decision, risk, analysisTime)
  {
    var final := FinalResult(stockData, allAnalysis, decision, risk, analysisTime);
    var entry := ("report_file", JStr(reportFile));
    var fields := final.fields + [entry];
    assert fields[..5] == final.fields;
    LookupFirst(final.fields, 1, "analysis");
    LookupFirst(final.fields, 2, "decision");
    LookupFirst(final.fields, 3, "risk_assessment");
    LookupFirst(final.fields, 4, "analysis_time");
    LookupExtended(final.fields, entry, "stock_data");
    LookupExtended(final.fields, entry, "analysis");
    LookupExtended(final.fields, entry, "decision");
    LookupExtended(final.fields, entry, "risk_assessment");
    LookupExtended(final.fields, entry, "analysis_time");
    LookupFirst(fields, 5, "report_file");
  }

  /** The roles of stages 2 to 5, in order: the analysts, both
      researchers, the debate, the trader, the risk manager. */
  lemma DeliberationRoles(llm: DeepSeekClient, stockData: Json, n: nat)
    ensures Roles(DeliberationCalls(llm, stockData, n)) == PipelineRoles(AsksNews(stockData))
  {
    DeliberationOfStages(llm, stockData, n, AnalystOutcome(llm, stockData, n), n + AnalystCount(stockData));
    StagedRoles(llm, stockData, AnalystOutcome(llm, stockData, n), n + AnalystCount(stockData));
  }

  /** Whatever the analysts conclude, the analysts' requests followed by
      those of stages 3 to 5 speak as `PipelineRoles`. */
  lemma StagedRoles(llm: DeepSeekClient, stockData: Json, analysisResults: Json, d: nat)
    ensures Roles(AnalystCalls(stockData) + WeighingCalls(llm, analysisResults, stockData, d))
            == PipelineRoles(AsksNews(stockData))
  {
    AnalystCallRoles(stockData);
    WeighingRoles(llm, analysisResults, stockData, d);
    RolesAppend(AnalystCalls(stockData), WeighingCalls(llm, analysisResults, stockData, d));
  }

  /** Stages 3 to 5 speak as both researchers, the debate, the trader and
      the risk manager. */
  lemma WeighingRoles(llm: DeepSeekClient, analysisResults: Json, stockData: Json, d: nat)
    ensures Roles(WeighingCalls(llm, analysisResults, stockData, d)) == WeighingRoleList
  {
    var allAnalysis := AllAnalysis(analysisResults, DebateStageOutcome(llm, d));
    DebateStageRoles(llm, analysisResults, stockData, d);
    DecisionRoles(llm, allAnalysis, stockData, d + DebateCallCount);
    RolesOfTwo(WeighingCalls(llm, analysisResults, stockData, d), DebateStageCalls(llm, analysisResults, stockData, d),
               DecisionCalls(llm, allAnalysis, stockData, d + DebateCallCount),
               [Some(Role.BullResearcher), Some(Role.BearResearcher),
                Some(Rebuttal(Bear)), Some(Rebuttal(Bull)), Some(Rebuttal(Bear)), Some(DebateModerator)],
               [Some(Role.Trader), Some(Role.RiskManager)]);
  }

  lemma RolesOfTwo(calls: seq<Request>, a: seq<Request>, b: seq<Request>, ra: seq<Option<Role>>, rb: seq<Option<Role>>)
    requires calls == a + b && Roles(a) == ra && Roles(b) == rb
    ensures Roles(calls) == ra + rb
  {
    RolesAppend(a, b);
  }

  /** Stage 2 speaks as `AnalystRoles`. */
  lemma AnalystCallRoles(stockData: Json)
    ensures Roles(AnalystCalls(stockData)) == AnalystRoles(AsksNews(stockData))
  {
  }

  /** Stages 4 and 5 speak as the trader, then the risk manager. */
  lemma DecisionRoles(llm: DeepSeekClient, allAnalysis: Json, stockData: Json, n: nat)
    ensures Roles(DecisionCalls(llm, allAnalysis, stockData, n)) == [Some(Role.Trader), Some(Role.RiskManager)]
  {
  }

  /** Stage 3 speaks as both researchers, then as the debate. */
  lemma DebateStageRoles(llm: DeepSeekClient, analysisResults: Json, stockData: Json, n: nat)
    ensures Roles(DebateStageCalls(llm, analysisResults, stockData, n))
            == [Some(Role.BullResearcher), Some(Role.BearResearcher),
                Some(Rebuttal(Bear)), Some(Rebuttal(Bull)), Some(Rebuttal(Bear)), Some(DebateModerator)]
  {
    var context := Values(ResearchContext(Nested(analysisResults), stockData));
    var researchers := [RoleRequest(Role.BullResearcher, context, DefaultTemperature)]
                       + [RoleRequest(Role.BearResearcher, context, DefaultTemperature)];
    var header := Values(DebateHeader(stockData));
    RolesAppend(researchers, DebateCalls(header, Reading(llm, n), Reading(llm, n + 1), MaxDebateRounds, llm.replies, n + 2));
    DebateCallRoles(header, Reading(llm, n), Reading(llm, n + 1), MaxDebateRounds, llm.replies, n + 2);
    DebateOrder();
  }

  /** What a written report leaves behind: `result` is the finished
      analysis of `stockCode`, stamped with `analysisTime`, whose report
      path is named by `day` and `hms`, and whose Markdown report (stamped
      `generatedAt`) and JSON dump were written, in that order, after
      `before`. */
  predicate Reported(result: Json, stockCode: string, stockData: Json, allAnalysis: Json, decision: Json, risk: Json,
                     outputDir: string, analysisTime: string, day: string, hms: string, generatedAt: string,
                     before: seq<(string, Document)>, after: seq<(string, Document)>)
  {
    var path := MarkdownPath(outputDir, stockCode, day, hms);
    && Summarizable(result)
    && Keys(result.fields) == FinalKeys
    && JObj(result.fields[..5]) == FinalResult(stockData, allAnalysis, decision, risk, analysisTime)
    && Part(result, "stock_data") == stockData
    && Get(result, "analysis_time", NA) == Ok(JStr(analysisTime))
    && Get(result, "report_file", NA) == Ok(JStr(path))
    && after == before + [(path, MarkdownReport(stockCode, JObj(result.fields[..5]), generatedAt))]
                       + [(JsonPath(outputDir, stockCode, day, hms), JsonDump(JObj(result.fields[..5])))]
  }

  /** `Reported` of the parts of a verdict is `Reported` of the verdict's
      parts. */
  lemma ReportedOf(result: Json, stockCode: string, stockData: Json, verdict: (Json, Json, Json), allAnalysis: Json,
                   decision: Json, risk: Json, outputDir: string, analysisTime: string, day: string, hms: string,
                   generatedAt: string, before: seq<(string, Document)>, after: seq<(string, Document)>, ok: bool)
    requires verdict == (allAnalysis, decision, risk)
    requires ok == Reported(result, stockCode, stockData, allAnalysis, decision, risk, outputDir, analysisTime, day,
                            hms, generatedAt, before, after)
    ensures ok == Reported(result, stockCode, stockData, verdict.0, verdict.1, verdict.2, outputDir, analysisTime,
                           day, hms, generatedAt, before, after)
  {
  }

  /** A result filed as stage 6 files it is a finished, reported analysis. */
  lemma FiledIsReported(stockCode: string, stockData: Json, allAnalysis: Json, decision: Json, risk: Json,
                        final: Json, outputDir: string, analysisTime: string, day: string, hms: string,
                        generatedAt: string, before: seq<(string, Document)>, after: seq<(string, Document)>,
                        result: Json)
    requires final == FinalResult(stockData, allAnalysis, decision, risk, analysisTime)
    requires MarkdownFault(final).None?
    requires var path := MarkdownPath(outputDir, stockCode, day, hms);
             && result == Filed(final, path)
             && after == before + [(path, MarkdownReport(stockCode, final, generatedAt))]
                                + [(JsonPath(outputDir, stockCode, day, hms), JsonDump(final))]
    ensures Reported(result, stockCode, stockData, allAnalysis, decision, risk, outputDir, analysisTime, day, hms,
                     generatedAt, before, after)
  {
    FiledResult(stockData, allAnalysis, decision, risk, analysisTime, MarkdownPath(outputDir, stockCode, day, hms));
  }

  class StockAnalysisSystem {
    const tushareClient: TushareClient
    const llmClient: DeepSeekClient
    /** The clock behind every `datetime.now()` of the pipeline and of the
        report generator. */
    const clock: Clock
    const technicalAnalyst: TechnicalAnalyst
    const fundamentalAnalyst: FundamentalAnalyst
    const newsAnalyst: NewsAnalyst
    const bullResearcher: BullResearcher
    const bearResearcher: BearResearcher
    const debateCoordinator: DebateCoordinator
    const trader: Trader
    const riskManager: RiskManager
    const reportGenerator: ReportGenerator

    /** Every agent talks through the one model client, and the report
        generator reads the one clock. */
    predicate Valid() {
      && technicalAnalyst.llm == llmClient && fundamentalAnalyst.llm == llmClient
      && newsAnalyst.llm == llmClient && bullResearcher.llm == llmClient
      && bearResearcher.llm == llmClient && debateCoordinator.llm == llmClient
      && trader.llm == llmClient && riskManager.llm == llmClient
      && reportGenerator.clock == clock
    }

    /** `__init__` (main.py:32-73): the data service's and the model
        service's answers, and the clock, are the oracles the system runs
        against. */
    constructor (parts: nat -> Parts, replies: nat -> Reply, decode: string -> Option<Json>, clock: Clock)
      ensures Valid()
      ensures fresh(tushareClient) && fresh(llmClient) && fresh(reportGenerator) && this.clock == clock
      ensures tushareClient.parts == parts && tushareClient.fetched == [] && tushareClient.cached == []
      ensures llmClient.model == DeepSeekModel && llmClient.replies == replies && llmClient.decode == decode
      ensures llmClient.calls == []
      ensures reportGenerator.outputDir == ReportDir && reportGenerator.written == []
    {
      tushareClient := new TushareClient(parts);
      var llm := new DeepSeekClient(DeepSeekModel, replies, decode);
      llmClient := llm;
      this.clock := clock;
      technicalAnalyst := new TechnicalAnalyst(llm);
      fundamentalAnalyst := new FundamentalAnalyst(llm);
      newsAnalyst := new NewsAnalyst(llm);
      bullResearcher := new BullResearcher(llm);
      bearResearcher := new BearResearcher(llm);
      debateCoordinator := new DebateCoordinator(llm);
      trader := new Trader(llm);
      riskManager := new RiskManager(llm);
      reportGenerator := new ReportGenerator(ReportDir, clock);
    }

    /** Stage 2 (main.py:98-106): the three analysts, one after the other,
        each reading the bundle; the first one that raises ends the stage. */
    method RunAnalysts(stockData: Json) returns (r: Result<Json>)
      requires Valid()
      modifies llmClient
      ensures r.Ok? <==> AnalystsSucceed(llmClient, stockData, |old(llmClient.calls)|)
      ensures r.Ok? ==>
                && llmClient.calls == old(llmClient.calls) + AnalystCalls(stockData)
                && r.value == AnalystOutcome(llmClient, stockData, |old(llmClient.calls)|)
    {
      ghost var n := |llmClient.calls|;
      var technical := technicalAnalyst.Analyze(stockData);
      if technical.Err? {
        Refused(llmClient, TechnicalContext(stockData), n, technical);
        assert !AnalystsSucceed(llmClient, stockData, n);
        return Err(technical.fault);
      }
      ghost var heard := llmClient.calls;
      assert |heard| == n + 1;
      var fundamental := fundamentalAnalyst.Analyze(stockData);
      if fundamental.Err? {
        Refused(llmClient, FundamentalContext(stockData), n + 1, fundamental);
        assert !AnalystsSucceed(llmClient, stockData, n);
        return Err(fundamental.fault);
      }
      ghost var judged := llmClient.calls;
      assert |judged| == n + 2;
      var news := newsAnalyst.Analyze(stockData);
      if news.Err? {
        NewsRefused(llmClient, stockData, n + 2, news);
        assert !AnalystsSucceed(llmClient, stockData, n);
        return Err(news.fault);
      }
      AnalystsAnswered(llmClient, stockData, technical, fundamental, news, old(llmClient.calls), heard, judged,
                       llmClient.calls);
      r := Ok(AnalystResults(technical.value, fundamental.value, news.value));
    }

    /** Stage 3 (main.py:112-121): both researchers, handed the analysts'
        results one level down, then the debate of `MaxDebateRounds` rounds. */
    method RunDebate(analysisResults: Json, stockData: Json) returns (r: Result<Json>)
      requires Valid()
      modifies llmClient
      ensures r.Ok? <==> DebateSucceeds(llmClient, analysisResults, stockData, |old(llmClient.calls)|)
      ensures r.Ok? ==>
                && llmClient.calls
                   == old(llmClient.calls) + DebateStageCalls(llmClient, analysisResults, stockData, |old(llmClient.calls)|)
                && r.value == DebateStageOutcome(llmClient, |old(llmClient.calls)|)
    {
      ghost var n := |llmClient.calls|;
      ghost var context := ResearchContext(Nested(analysisResults), stockData);
      var bullView := bullResearcher.Research(Nested(analysisResults), stockData);
      if bullView.Err? {
        Refused(llmClient, context, n, bullView);
        return Err(bullView.fault);
      }
      ghost var heard := llmClient.calls;
      var bearView := bearResearcher.Research(Nested(analysisResults), stockData);
      if bearView.Err? {
        Refused(llmClient, context, n + 1, bearView);
        return Err(bearView.fault);
      }
      ghost var judged := llmClient.calls;
      r := debateCoordinator.CoordinateDebate(bullView.value, bearView.value, stockData, MaxDebateRounds);
      if r.Ok? {
        DebateLogged(old(llmClient.calls), heard, judged, llmClient.calls, context.value,
                     DebateCalls(DebateHeader(stockData).value, bullView.value, bearView.value, MaxDebateRounds,
                                 llmClient.replies, n + 2));
        DebateAnswered(llmClient, analysisResults, stockData, n, bullView.value, bearView.value,
                       old(llmClient.calls), llmClient.calls);
      }
    }

    /** Stages 4 and 5 (main.py:132-140): the trader reads the complete
        analysis, the risk manager also the trader's decision. */
    method Decide(allAnalysis: Json, stockData: Json) returns (r: Result<(Json, Json)>)
      requires Valid()
      modifies llmClient
      ensures r.Ok? <==> DecisionSucceeds(llmClient, allAnalysis, stockData, |old(llmClient.calls)|)
      ensures r.Ok? ==>
                && llmClient.calls
                   == old(llmClient.calls) + DecisionCalls(llmClient, allAnalysis, stockData, |old(llmClient.calls)|)
                && r.value == (Reading(llmClient, |old(llmClient.calls)|), Reading(llmClient, |old(llmClient.calls)| + 1))
      ensures r.Ok? ==> r.value.0.JObj? && r.value.1.JObj?
    {
      ghost var n := |llmClient.calls|;
      var decision := trader.MakeDecision(allAnalysis, stockData);
      if decision.Err? {
        return Err(decision.fault);
      }
      assert decision.value == Reading(llmClient, n);
      ghost var heard := llmClient.calls;
      assert |heard| == n + 1;
      var risk := riskManager.AssessRisk(decision.value, allAnalysis, stockData);
      if risk.Err? {
        assert !DecisionSucceeds(llmClient, allAnalysis, stockData, n);
        return Err(risk.fault);
      }
      assert risk.value == Reading(llmClient, n + 1);
      r := Ok((decision.value, risk.value));
    }

    /** The start of stage 6 (main.py:146-153): the result is stamped with
        two clock readings, the analysis time and the finishing time. */
    method Stamp(stockData: Json, allAnalysis: Json, decision: Json, risk: Json) returns (finalResult: Json)
      modifies clock
      ensures clock.ticks == old(clock.ticks) + 2
      ensures finalResult == FinalResult(stockData, allAnalysis, decision, risk, clock.readings(old(clock.ticks)).iso)
    {
      var analysisTime := clock.Now();
      var finishedAt := clock.Now();
      finalResult := FinalResult(stockData, allAnalysis, decision, risk, analysisTime.iso);
    }

    /** The rest of stage 6 (main.py:155-165): the report is written, the
        report path is added to the result, and the last reading times the
        whole run. The stage raises exactly when the report cannot be filled
        in, and then writes nothing. */
    method FileReport(stockCode: string, finalResult: Json) returns (r: Result<Json>)
      requires reportGenerator.clock == clock
      modifies clock, reportGenerator
      ensures r.Ok? <==> MarkdownFault(finalResult).None?
      ensures r.Err? ==> reportGenerator.written == old(reportGenerator.written)
      ensures r.Ok? ==>
                && finalResult.JObj?
                && clock.ticks == old(clock.ticks) + 4
                && var u := clock.ticks - 4;
                   var day, hms := clock.readings(u).day, clock.readings(u + 1).hms;
                   var path := MarkdownPath(reportGenerator.outputDir, stockCode, day, hms);
                   && r.value == Filed(finalResult, path)
                   && reportGenerator.written
                      == old(reportGenerator.written)
                         + [(path, MarkdownReport(stockCode, finalResult, clock.readings(u + 2).display))]
                         + [(JsonPath(reportGenerator.outputDir, stockCode, day, hms), JsonDump(finalResult))]
    {
      var reportFile := reportGenerator.GenerateReport(stockCode, finalResult);
      if reportFile.Err? {
        return Err(reportFile.fault);
      }
      r := Ok(Filed(finalResult, reportFile.value));
      var duration := clock.Now();
      assert clock.ticks - 4 == old(clock.ticks);
    }

    /** Stages 3 to 5 (main.py:112-140): the debate on the analysts'
        results, then the trader and the risk manager on the complete
        analysis; the first stage that raises ends the analysis. */
    method Weigh(analysisResults: Json, stockData: Json) returns (r: Result<(Json, Json, Json)>)
      requires Valid()
      modifies llmClient
      ensures r.Ok? <==> WeighingSucceeds(llmClient, analysisResults, stockData, |old(llmClient.calls)|)
      ensures r.Ok? ==>
                && llmClient.calls
                   == old(llmClient.calls) + WeighingCalls(llmClient, analysisResults, stockData, |old(llmClient.calls)|)
                && r.value == Weighing(llmClient, analysisResults, |old(llmClient.calls)|)
    {
      ghost var d := |llmClient.calls|;
      var debateResult := RunDebate(analysisResults, stockData);
      if debateResult.Err? {
        return Err(debateResult.fault);
      }
      ghost var debated := llmClient.calls;
      assert |debated| == d + DebateCallCount;
      var allAnalysis := AllAnalysis(analysisResults, debateResult.value);
      var decided := Decide(allAnalysis, stockData);
      if decided.Err? {
        return Err(decided.fault);
      }
      Chain(old(llmClient.calls), debated, llmClient.calls, DebateStageCalls(llmClient, analysisResults, stockData, d),
            DecisionCalls(llmClient, allAnalysis, stockData, d + DebateCallCount));
      r := Ok((allAnalysis, decided.value.0, decided.value.1));
    }

    /** Stages 2 to 5 (main.py:98-140): the analysts, the debate on their
        results, then the trader and the risk manager on everything said so
        far; the first stage that raises ends the analysis. */
    method Deliberate(stockData: Json) returns (r: Result<(Json, Json, Json)>)
      requires Valid()
      modifies llmClient
      ensures r.Ok? <==> DeliberationSucceeds(llmClient, stockData, |old(llmClient.calls)|)
      ensures r.Ok? ==>
                && llmClient.calls == old(llmClient.calls) + DeliberationCalls(llmClient, stockData, |old(llmClient.calls)|)
                && r.value == Deliberation(llmClient, stockData, |old(llmClient.calls)|)
    {
      ghost var n := |llmClient.calls|;
      var analysisResults := RunAnalysts(stockData);
      if analysisResults.Err? {
        return Err(analysisResults.fault);
      }
      ghost var analysed := llmClient.calls;
      ghost var d := n + AnalystCount(stockData);
      assert |analysed| == d;
      ghost var results := AnalystOutcome(llmClient, stockData, n);
      assert analysisResults.value == results;
      assert AnalystsSucceed(llmClient, stockData, n);
      r := Weigh(analysisResults.value, stockData);
      assert r.Ok? <==> WeighingSucceeds(llmClient, results, stockData, d);
      DeliberationOfStages(llmClient, stockData, n, results, d);
      if r.Ok? {
        Chain(old(llmClient.calls), analysed, llmClient.calls, AnalystCalls(stockData),
              WeighingCalls(llmClient, results, stockData, d));
      }
    }

    /** `analyze_stock` (main.py:78-165): fetch and, if asked, cache the
        bundle; then the analysts, the debate, the trader and the risk
        manager, in that order; then the report, whose path is added to the
        result only once the report is written. Any stage that raises ends
        the analysis, and nothing is written then. */
    method AnalyzeStock(stockCode: string, saveCache: bool) returns (r: Result<Json>)
      requires Valid()
      modifies tushareClient, llmClient, clock, reportGenerator
      ensures var data := Bundle(stockCode, tushareClient.parts(|old(tushareClient.fetched)|));
              && tushareClient.fetched == old(tushareClient.fetched) + [stockCode]
              && tushareClient.cached == old(tushareClient.cached) + (if saveCache then [(stockCode, data)] else [])
              && (r.Err? ==> reportGenerator.written == old(reportGenerator.written))
              && (r.Ok? ==> Roles(llmClient.calls) == Roles(old(llmClient.calls)) + PipelineRoles(AsksNews(data)))
      ensures var data := Bundle(stockCode, tushareClient.parts(|old(tushareClient.fetched)|));
              r.Ok? <==>
                && DeliberationSucceeds(llmClient, data, |old(llmClient.calls)|)
                && var v := Deliberation(llmClient, data, |old(llmClient.calls)|);
                   MarkdownFault(FinalResult(data, v.0, v.1, v.2, clock.readings(old(clock.ticks) + 1).iso)).None?
      ensures var data := Bundle(stockCode, tushareClient.parts(|old(tushareClient.fetched)|));
              r.Ok? ==> llmClient.calls == old(llmClient.calls) + DeliberationCalls(llmClient, data, |old(llmClient.calls)|)
      ensures r.Ok? ==>
                && clock.ticks == old(clock.ticks) + 7
                && var u := clock.ticks - 4;
                   var data := Bundle(stockCode, tushareClient.parts(|old(tushareClient.fetched)|));
                   var v := Deliberation(llmClient, data, |old(llmClient.calls)|);
                   Reported(r.value, stockCode, data, v.0, v.1, v.2, reportGenerator.outputDir,
                            clock.readings(u - 2).iso, clock.readings(u).day, clock.readings(u + 1).hms,
                            clock.readings(u + 2).display, old(reportGenerator.written), reportGenerator.written)
    {
      var startTime := clock.Now();
      var stockData := tushareClient.GetComprehensiveData(stockCode);
      if saveCache {
        tushareClient.SaveDataToCache(stockCode, stockData);
      }
      assert llmClient.calls == old(llmClient.calls) && clock.ticks == old(clock.ticks) + 1;
      r := Assess(stockCode, stockData);
    }

    /** Stages 2 to 6 of `analyze_stock` (main.py:98-165) on a fetched
        bundle: the analysis, then the report. Nothing is written unless
        both succeed. */
    method Assess(stockCode: string, stockData: Json) returns (r: Result<Json>)
      requires Valid()
      modifies llmClient, clock, reportGenerator
      ensures r.Ok? <==>
                && DeliberationSucceeds(llmClient, stockData, |old(llmClient.calls)|)
                && var v := Deliberation(llmClient, stockData, |old(llmClient.calls)|);
                   MarkdownFault(FinalResult(stockData, v.0, v.1, v.2, clock.readings(old(clock.ticks)).iso)).None?
      ensures r.Err? ==> reportGenerator.written == old(reportGenerator.written)
      ensures r.Ok? ==>
                llmClient.calls == old(llmClient.calls) + DeliberationCalls(llmClient, stockData, |old(llmClient.calls)|)
      ensures r.Ok? ==> Roles(llmClient.calls) == Roles(old(llmClient.calls)) + PipelineRoles(AsksNews(stockData))
      ensures r.Ok? ==>
                && clock.ticks == old(clock.ticks) + 6
                && var u := clock.ticks - 4;
                   var v := Deliberation(llmClient, stockData, |old(llmClient.calls)|);
                   Reported(r.value, stockCode, stockData, v.0, v.1, v.2, reportGenerator.outputDir,
                            clock.readings(u - 2).iso, clock.readings(u).day, clock.readings(u + 1).hms,
                            clock.readings(u + 2).display, old(reportGenerator.written), reportGenerator.written)
    {
      var verdict := Deliberate(stockData);
      if verdict.Err? {
        return Err(verdict.fault);
      }
      DeliberationRoles(llmClient, stockData, |old(llmClient.calls)|);
      RolesAppend(old(llmClient.calls), DeliberationCalls(llmClient, stockData, |old(llmClient.calls)|));
      var (allAnalysis, decision, risk) := verdict.value;
      assert reportGenerator.written == old(reportGenerator.written);
      assert clock.ticks == old(clock.ticks);
      r := Conclude(stockCode, stockData, allAnalysis, decision, risk);
      if r.Ok? {
        ghost var u := clock.ticks - 4;
        ReportedOf(r.value, stockCode, stockData, Deliberation(llmClient, stockData, |old(llmClient.calls)|),
                   allAnalysis, decision, risk, reportGenerator.outputDir, clock.readings(u - 2).iso,
                   clock.readings(u).day, clock.readings(u + 1).hms, clock.readings(u + 2).display,
                   old(reportGenerator.written), reportGenerator.written, true);
      }
    }

    /** Stage 6 (main.py:143-165): the result is stamped, the report is
        written and its path added. The stage raises exactly when the report
        cannot be filled in, and then writes nothing. */
    method Conclude(stockCode: string, stockData: Json, allAnalysis: Json, decision: Json, risk: Json)
      returns (r: Result<Json>)
      requires reportGenerator.clock == clock
      modifies clock, reportGenerator
      ensures var t := old(clock.ticks);
              r.Ok? <==> MarkdownFault(FinalResult(stockData, allAnalysis, decision, risk, clock.readings(t).iso)).None?
      ensures r.Err? ==> reportGenerator.written == old(reportGenerator.written)
      ensures r.Ok? ==>
                && clock.ticks == old(clock.ticks) + 6
                && var u := clock.ticks - 4;
                   Reported(r.value, stockCode, stockData, allAnalysis, decision, risk, reportGenerator.outputDir,
                            clock.readings(u - 2).iso, clock.readings(u).day, clock.readings(u + 1).hms,
                            clock.readings(u + 2).display, old(reportGenerator.written), reportGenerator.written)
    {
      var finalResult := Stamp(stockData, allAnalysis, decision, risk);
      r := FileReport(stockCode, finalResult);
      if r.Ok? {
        ghost var u := clock.ticks - 4;
        assert u - 2 == old(clock.ticks);
        FiledIsReported(stockCode, stockData, allAnalysis, decision, risk, finalResult, reportGenerator.outputDir,
                        clock.readings(u - 2).iso, clock.readings(u).day, clock.readings(u + 1).hms,
                        clock.readings(u + 2).display, old(reportGenerator.written), reportGenerator.written, r.value);
      }
    }

    /** One pass of the batch loop (main.py:180-187): the code is analysed
        with the cache on, and an analysis that raises is caught and skipped.
        The pass keeps a result exactly when the analysis succeeds, and then
        it is the reported analysis of this fetch. */
    method TryAnalyze(stockCode: string, ghost n: nat) returns (result: Option<Json>)
      requires Valid() && n == |tushareClient.fetched|
      modifies tushareClient, llmClient, clock, reportGenerator
      ensures tushareClient.fetched == old(tushareClient.fetched) + [stockCode]
      ensures var data := Bundle(stockCode, tushareClient.parts(n));
              result.Some? <==>
                && DeliberationSucceeds(llmClient, data, |old(llmClient.calls)|)
                && var v := Deliberation(llmClient, data, |old(llmClient.calls)|);
                   MarkdownFault(FinalResult(data, v.0, v.1, v.2, clock.readings(old(clock.ticks) + 1).iso)).None?
      ensures result.None? ==> reportGenerator.written == old(reportGenerator.written)
      ensures var data := Bundle(stockCode, tushareClient.parts(n));
              result.Some? ==> llmClient.calls == old(llmClient.calls) + DeliberationCalls(llmClient, data, |old(llmClient.calls)|)
      ensures result.Some? ==>
                && clock.ticks == old(clock.ticks) + 7
                && var u := clock.ticks - 4;
                   var data := Bundle(stockCode, tushareClient.parts(n));
                   var v := Deliberation(llmClient, data, |old(llmClient.calls)|);
                   Reported(result.value, stockCode, data, v.0, v.1, v.2, reportGenerator.outputDir,
                            clock.readings(u - 2).iso, clock.readings(u).day, clock.readings(u + 1).hms,
                            clock.readings(u + 2).display, old(reportGenerator.written), reportGenerator.written)
    {
      var r := AnalyzeStock(stockCode, true);
      result := if r.Ok? then Some(r.value) else None;
    }

    /** Pass `i` of the batch loop (main.py:180-182) over `stockCodes`, the
        `base + i`-th fetch: the pass `BatchPass` records between the state
        before and after it. A kept result can be summarised, carries its
        bundle and was filed with two files; a dropped code wrote nothing. */
    method TryAnalyzeAt(stockCodes: seq<string>, i: nat, ghost base: nat) returns (outcome: Option<Json>)
      requires Valid() && i < |stockCodes| && |tushareClient.fetched| == base + i
      modifies tushareClient, llmClient, clock, reportGenerator
      ensures tushareClient.fetched == old(tushareClient.fetched) + [stockCodes[i]]
      ensures BatchPass(stockCodes, tushareClient.parts, base, llmClient, clock.readings, reportGenerator.outputDir)
                (i, Mark(old(llmClient.calls), old(clock.ticks), old(reportGenerator.written)),
                 Mark(llmClient.calls, clock.ticks, reportGenerator.written), outcome)
      ensures outcome.Some? ==>
                && Summarizable(outcome.value)
                && Part(outcome.value, "stock_data") == Bundle(stockCodes[i], tushareClient.parts(base + i))
                && |reportGenerator.written| == |old(reportGenerator.written)| + 2
      ensures outcome.None? ==> reportGenerator.written == old(reportGenerator.written)
    {
      outcome := TryAnalyze(stockCodes[i], base + i);
      BatchPassOfAnalysis(stockCodes, tushareClient.parts, base, llmClient, clock.readings, reportGenerator.outputDir,
                          i, old(llmClient.calls), old(clock.ticks), old(reportGenerator.written), llmClient.calls,
                          clock.ticks, reportGenerator.written, outcome, true);
    }

    /** One pass of the batch loop (main.py:180-187) over code `i`: its
        result, when the analysis does not raise, is kept after the results
        so far, with `i` recorded as the code it came from. `outcome` is
        what the pass kept. */
    method AnalyzeNext(stockCodes: seq<string>, i: nat, results: seq<Json>, ghost picked: seq<nat>, ghost base: nat)
      returns (results': seq<Json>, ghost picked': seq<nat>, ghost outcome: Option<Json>)
      requires Valid() && i < |stockCodes| && |tushareClient.fetched| == base + i
      requires Gathered(results, picked, stockCodes, tushareClient.parts, base, i)
      modifies tushareClient, llmClient, clock, reportGenerator
      ensures tushareClient.fetched == old(tushareClient.fetched) + [stockCodes[i]]
      ensures Gathered(results', picked', stockCodes, tushareClient.parts, base, i + 1)
      ensures results' == (if outcome.Some? then results + [outcome.value] else results)
      ensures picked' == (if outcome.Some? then picked + [i] else picked)
      ensures BatchPass(stockCodes, tushareClient.parts, base, llmClient, clock.readings, reportGenerator.outputDir)
                (i, Mark(old(llmClient.calls), old(clock.ticks), old(reportGenerator.written)),
                 Mark(llmClient.calls, clock.ticks, reportGenerator.written), outcome)
      ensures |reportGenerator.written| == |old(reportGenerator.written)| + 2 * (|results'| - |results|)
      ensures results' == results ==> reportGenerator.written == old(reportGenerator.written)
    {
      var result := TryAnalyzeAt(stockCodes, i, base);
      outcome := result;
      InOrderStep(picked, i, result.Some?);
      if result.Some? {
        FromFetchesAppended(results, picked, result.value, i, stockCodes, tushareClient.parts, base);
        SummarizableAppended(results, result.value);
        results', picked' := results + [result.value], picked + [i];
      } else {
        results', picked' := results, picked;
      }
    }

    /** The loop of `batch_analyze` (main.py:173-187): every code is analysed
        once, in order, with the cache on; a code whose analysis raises is
        dropped and the loop goes on. Pass `k` runs from `marks[k]` to
        `marks[k + 1]` and has `outcomes[k]`; `picked` says which code each
        result came from. */
    method AnalyzeEach(stockCodes: seq<string>)
      returns (results: seq<Json>, ghost picked: seq<nat>, ghost outcomes: seq<Option<Json>>, ghost marks: seq<Mark>)
      requires Valid()
      modifies tushareClient, llmClient, clock, reportGenerator
      ensures tushareClient.fetched == old(tushareClient.fetched) + stockCodes
      ensures |results| <= |stockCodes| && InOrder(picked, |stockCodes|)
      ensures FromFetches(results, picked, stockCodes, tushareClient.parts, |old(tushareClient.fetched)|)
      ensures AllSummarizable(results)
      ensures |reportGenerator.written| == |old(reportGenerator.written)| + 2 * |results|
      ensures results == [] ==> reportGenerator.written == old(reportGenerator.written)
      ensures |outcomes| == |stockCodes| && Picks(results, picked, outcomes)
      ensures AllPasses(outcomes, marks, BatchPass(stockCodes, tushareClient.parts, |old(tushareClient.fetched)|,
                                                   llmClient, clock.readings, reportGenerator.outputDir))
      ensures marks[0] == Mark(old(llmClient.calls), old(clock.ticks), old(reportGenerator.written))
      ensures marks[|stockCodes|] == Mark(llmClient.calls, clock.ticks, reportGenerator.written)
    {
      results := [];
      picked := [];
      outcomes := [];
      marks := [Mark(llmClient.calls, clock.ticks, reportGenerator.written)];
      ghost var base := |old(tushareClient.fetched)|;
      ghost var swept := true;
      for i := 0 to |stockCodes|
        invariant swept == Swept(results, picked, outcomes, marks, stockCodes, tushareClient.parts, base,
                                 BatchPass(stockCodes, tushareClient.parts, base, llmClient, clock.readings,
                                           reportGenerator.outputDir), i,
                                 old(tushareClient.fetched), tushareClient.fetched,
                                 Mark(old(llmClient.calls), old(clock.ticks), old(reportGenerator.written)),
                                 old(reportGenerator.written), reportGenerator.written)
        invariant marks[i] == Mark(llmClient.calls, clock.ticks, reportGenerator.written)
      {
        ghost var fetched, results0, picked0, written := tushareClient.fetched, results, picked, reportGenerator.written;
        ghost var outcome;
        results, picked, outcome := AnalyzeNext(stockCodes, i, results, picked, base);
        SweptStep(results0, picked0, outcomes, marks, stockCodes, tushareClient.parts, base,
                  BatchPass(stockCodes, tushareClient.parts, base, llmClient, clock.readings, reportGenerator.outputDir),
                  i, old(tushareClient.fetched), fetched,
                  Mark(old(llmClient.calls), old(clock.ticks), old(reportGenerator.written)),
                  old(reportGenerator.written), written, results, picked, outcome, tushareClient.fetched,
                  llmClient.calls, clock.ticks, reportGenerator.written);
        outcomes, marks := outcomes + [outcome], marks + [Mark(llmClient.calls, clock.ticks, reportGenerator.written)];
      }
      assert stockCodes[..|stockCodes|] == stockCodes;
    }

    /** `batch_analyze` (main.py:167-200): the codes are fetched and
        analysed in turn; the summary page and the index are written after
        the reports exactly when some code's analysis succeeded, and the
        summary never raises on results the pipeline returned. */
    method BatchAnalyze(stockCodes: seq<string>, mode: string, listing: seq<Node>)
      returns (results: seq<Json>, ghost picked: seq<nat>, ghost outcomes: seq<Option<Json>>, ghost marks: seq<Mark>)
      requires Valid()
      modifies tushareClient, llmClient, clock, reportGenerator
      ensures tushareClient.fetched == old(tushareClient.fetched) + stockCodes
      ensures |outcomes| == |stockCodes| && Picks(results, picked, outcomes)
      ensures AllPasses(outcomes, marks, BatchPass(stockCodes, tushareClient.parts, |old(tushareClient.fetched)|,
                                                   llmClient, clock.readings, reportGenerator.outputDir))
      ensures marks[0] == Mark(old(llmClient.calls), old(clock.ticks), old(reportGenerator.written))
      ensures results != [] <==> exists k :: 0 <= k < |stockCodes| && outcomes[k].Some?
      ensures results == [] ==> reportGenerator.written == old(reportGenerator.written)
      ensures results != [] ==>
                && clock.ticks >= 4
                && marks[|stockCodes|].written <= reportGenerator.written
                && SummaryFiled(reportGenerator.written, reportGenerator.outputDir, clock.readings, clock.ticks - 4,
                                mode, results, listing)
      ensures results != [] ==>
                && AllSummarizable(results)
                && |reportGenerator.written| == |old(reportGenerator.written)| + 2 * |results| + 2
    {
      results, picked, outcomes, marks := AnalyzeEach(stockCodes);
      SomeKept(results, picked, outcomes);
      Summarize(results, mode, listing);
    }

    /** The end of `batch_analyze` (main.py:189-198): when results remain,
        the summary page and the index are written, which cannot fail on
        results the pipeline returned; otherwise nothing is written. */
    method Summarize(results: seq<Json>, mode: string, listing: seq<Node>)
      requires Valid() && (results != [] ==> AllSummarizable(results))
      modifies clock, reportGenerator
      ensures results == [] ==> reportGenerator.written == old(reportGenerator.written)
      ensures results != [] ==>
                && clock.ticks >= 4
                && old(reportGenerator.written) <= reportGenerator.written
                && |reportGenerator.written| == |old(reportGenerator.written)| + 2
                && SummaryFiled(reportGenerator.written, reportGenerator.outputDir, clock.readings, clock.ticks - 4,
                                mode, results, listing)
    {
      if results != [] {
        ghost var before := reportGenerator.written;
        var summaryFile := reportGenerator.GenerateSummaryReport(results, mode, listing);
        SummaryFiledAfter(before, reportGenerator.outputDir, clock.readings, clock.ticks - 4, mode, results, listing);
      }
    }
  }

  /** Result `k` is the analysis of code `picked[k]`: it carries the bundle
      of fetch number `base + picked[k]`. */
  ghost predicate FromFetches(results: seq<Json>, picked: seq<nat>, stockCodes: seq<string>, parts: nat -> Parts,
                              base: nat)
    decreases |results|
  {
    && |picked| == |results|
    && (results != [] ==>
          var n := |results| - 1;
          && picked[n] < |stockCodes|
          && results[n].JObj?
          && Part(results[n], "stock_data") == Bundle(stockCodes[picked[n]], parts(base + picked[n]))
          && FromFetches(results[..n], picked[..n], stockCodes, parts, base))
  }

  /** Traced to its fetch, result by result. */
  lemma {:induction false} FromFetchesEach(results: seq<Json>, picked: seq<nat>, stockCodes: seq<string>,
                                          parts: nat -> Parts, base: nat)
    requires FromFetches(results, picked, stockCodes, parts, base)
    ensures |picked| == |results|
    ensures forall k :: 0 <= k < |results| ==>
              && picked[k] < |stockCodes|
              && results[k].JObj?
              && Part(results[k], "stock_data") == Bundle(stockCodes[picked[k]], parts(base + picked[k]))
    decreases |results|
  {
    if results != [] {
      var n := |results| - 1;
      FromFetchesEach(results[..n], picked[..n], stockCodes, parts, base);
      forall k | 0 <= k < n
        ensures picked[k] < |stockCodes| && results[k].JObj?
        ensures Part(results[k], "stock_data") == Bundle(stockCodes[picked[k]], parts(base + picked[k]))
      {
        assert results[..n][k] == results[k] && picked[..n][k] == picked[k];
      }
    }
  }


  /** Keeping one more result, taken from fetch `base + i`, keeps every
      result traced to its fetch. */
  lemma FromFetchesAppended(results: seq<Json>, picked: seq<nat>, result: Json, i: nat, stockCodes: seq<string>,
                            parts: nat -> Parts, base: nat)
    requires FromFetches(results, picked, stockCodes, parts, base)
    requires i < |stockCodes| && result.JObj?
    requires Part(result, "stock_data") == Bundle(stockCodes[i], parts(base + i))
    ensures FromFetches(results + [result], picked + [i], stockCodes, parts, base)
  {
    assert (results + [result])[..|results|] == results;
    assert (picked + [i])[..|picked|] == picked;
  }


  /** After `i` passes of the batch loop, starting at fetch `base`: at
      most one result per pass, in the order of the codes, each traced to
      its fetch and readable by the summary. */
  ghost predicate Gathered(results: seq<Json>, picked: seq<nat>, stockCodes: seq<string>, parts: nat -> Parts,
                           base: nat, i: nat)
  {
    && |results| <= i && InOrder(picked, i)
    && FromFetches(results, picked, stockCodes, parts, base) && AllSummarizable(results)
  }

  /** `picked` lists positions below `n`, each below the next. */
  ghost predicate InOrder(picked: seq<nat>, n: nat)
    decreases |picked|
  {
    picked == [] || (picked[|picked| - 1] < n && InOrder(picked[..|picked| - 1], picked[|picked| - 1]))
  }

  /** In order means every position is below `n` and the positions strictly
      increase. */
  lemma {:induction false} InOrderIncreasing(picked: seq<nat>, n: nat)
    requires InOrder(picked, n)
    ensures forall k :: 0 <= k < |picked| ==> picked[k] < n
    ensures forall k, j :: 0 <= k < j < |picked| ==> picked[k] < picked[j]
    decreases |picked|
  {
    if picked != [] {
      var m := |picked| - 1;
      var init := picked[..m];
      InOrderIncreasing(init, picked[m]);
      assert forall k :: 0 <= k < m ==> picked[k] == init[k];
    }
  }

  /** Position `i`, kept or dropped, leaves the positions below `i + 1` in
      order. */
  lemma InOrderStep(picked: seq<nat>, i: nat, keep: bool)
    requires InOrder(picked, i)
    ensures InOrder(if keep then picked + [i] else picked, i + 1)
  {
    if keep {
      assert (picked + [i])[..|picked|] == picked;
    }
  }

  /** Where the batch loop stands between two passes: the model requests
      made so far, how often the clock has been read and the files written
      so far. */
  datatype Mark = Mark(calls: seq<Request>, ticks: nat, written: seq<(string, Document)>)

  /** The analysis of bundle `data`, begun after `n` model requests and `t`
      clock readings, does not raise: stages 2 to 5 answer from request `n`
      on, and the report can be filled in with the time read at tick
      `t + 1`. */
  ghost predicate PassSucceeds(llm: DeepSeekClient, readings: nat -> Moment, data: Json, n: nat, t: nat) {
    && DeliberationSucceeds(llm, data, n)
    && var v := Deliberation(llm, data, n);
       MarkdownFault(FinalResult(data, v.0, v.1, v.2, readings(t + 1).iso)).None?
  }

  /** A pass on `stockCode` and its bundle `data` that began with requests
      `calls`, `t` clock readings and files `written`, ended with `calls'`,
      `t'` and `written'`, and returned `result`: it made exactly the
      requests of stages 2 to 5, read the clock seven times, and `result` is
      the reported analysis, whose two report files are what it wrote. */
  ghost predicate PassKept(llm: DeepSeekClient, readings: nat -> Moment, outputDir: string, stockCode: string,
                           data: Json, calls: seq<Request>, t: nat, written: seq<(string, Document)>,
                           calls': seq<Request>, t': nat, written': seq<(string, Document)>, result: Json)
  {
    && calls' == calls + DeliberationCalls(llm, data, |calls|)
    && t' == t + 7
    && var u := t' - 4;
       var v := Deliberation(llm, data, |calls|);
       Reported(result, stockCode, data, v.0, v.1, v.2, outputDir, readings(u - 2).iso, readings(u).day,
                readings(u + 1).hms, readings(u + 2).display, written, written')
  }

  /** A kept result can be summarised, carries the bundle it was made
      from, and was filed with exactly two files. */
  lemma KeptShape(llm: DeepSeekClient, readings: nat -> Moment, outputDir: string, stockCode: string, data: Json,
                  calls: seq<Request>, t: nat, written: seq<(string, Document)>, calls': seq<Request>, t': nat,
                  written': seq<(string, Document)>, result: Json, kept: bool)
    requires kept
    requires kept == PassKept(llm, readings, outputDir, stockCode, data, calls, t, written, calls', t', written', result)
    ensures Summarizable(result) && Part(result, "stock_data") == data && |written'| == |written| + 2
  {
  }

  /** What such a pass did: it kept an outcome exactly when the analysis
      succeeded, a kept outcome is the reported analysis, and a pass that
      kept nothing wrote nothing. */
  ghost predicate PassOutcome(llm: DeepSeekClient, readings: nat -> Moment, outputDir: string, stockCode: string,
                              data: Json, calls: seq<Request>, t: nat, written: seq<(string, Document)>,
                              calls': seq<Request>, t': nat, written': seq<(string, Document)>, outcome: Option<Json>)
  {
    && (outcome.Some? <==> PassSucceeds(llm, readings, data, |calls|, t))
    && (outcome.Some? ==>
          PassKept(llm, readings, outputDir, stockCode, data, calls, t, written, calls', t', written', outcome.value))
    && (outcome.None? ==> written' == written)
  }

  /** `results` are the kept outcomes, in order, and `picked` the positions
      they were kept at. */
  ghost predicate Picks(results: seq<Json>, picked: seq<nat>, outcomes: seq<Option<Json>>)
    decreases |outcomes|
  {
    if outcomes == [] then results == [] && picked == []
    else
      var k := |outcomes| - 1;
      match outcomes[k]
      case Some(r) =>
        && results != [] && |picked| == |results| && results[|results| - 1] == r && picked[|picked| - 1] == k
        && Picks(results[..|results| - 1], picked[..|picked| - 1], outcomes[..k])
      case None => Picks(results, picked, outcomes[..k])
  }

  /** Picking, position by position: a position is picked exactly when its
      outcome was kept, and result `j` is the outcome at `picked[j]`. */
  lemma {:induction false} PicksEach(results: seq<Json>, picked: seq<nat>, outcomes: seq<Option<Json>>)
    requires Picks(results, picked, outcomes)
    ensures |picked| == |results|
    ensures forall k :: 0 <= k < |outcomes| ==> (k in picked <==> outcomes[k].Some?)
    ensures forall j :: 0 <= j < |results| ==> picked[j] < |outcomes| && outcomes[picked[j]] == Some(results[j])
    decreases |outcomes|
  {
    if outcomes != [] {
      var k := |outcomes| - 1;
      var init := outcomes[..k];
      if outcomes[k].Some? {
        var m := |results| - 1;
        var rs, ps := results[..m], picked[..m];
        PicksEach(rs, ps, init);
        assert picked == ps + [k];
        forall q | 0 <= q < |outcomes|
          ensures q in picked <==> outcomes[q].Some?
        {
          if q < k {
            assert init[q] == outcomes[q];
            assert q in picked <==> q in ps;
          } else {
            assert picked[m] == q;
          }
        }
        forall j | 0 <= j < |results|
          ensures picked[j] < |outcomes| && outcomes[picked[j]] == Some(results[j])
        {
          if j < m {
            assert rs[j] == results[j] && ps[j] == picked[j];
            assert init[ps[j]] == outcomes[ps[j]];
          }
        }
      } else {
        PicksEach(results, picked, init);
        forall q | 0 <= q < |outcomes|
          ensures q in picked <==> outcomes[q].Some?
        {
          if q < k {
            assert init[q] == outcomes[q];
          }
        }
        forall j | 0 <= j < |results|
          ensures picked[j] < |outcomes| && outcomes[picked[j]] == Some(results[j])
        {
          assert init[picked[j]] == outcomes[picked[j]];
        }
      }
    }
  }

  /** One more pass extends the picking. */
  lemma PicksStep(results: seq<Json>, picked: seq<nat>, outcomes: seq<Option<Json>>, outcome: Option<Json>)
    requires Picks(results, picked, outcomes)
    ensures Picks(if outcome.Some? then results + [outcome.value] else results,
                  if outcome.Some? then picked + [|outcomes|] else picked, outcomes + [outcome])
  {
    PicksEach(results, picked, outcomes);
    assert (outcomes + [outcome])[..|outcomes|] == outcomes;
    if outcome.Some? {
      assert (results + [outcome.value])[..|results|] == results;
      assert (picked + [|outcomes|])[..|picked|] == picked;
    }
  }

  /** Pass `k` of a batch over `stockCodes`, on fetch `base + k`, ran from
      `from` to `to` and had `outcome`, as `PassOutcome` says of it. */
  ghost predicate PassBetween(stockCodes: seq<string>, parts: nat -> Parts, base: nat, llm: DeepSeekClient,
                              readings: nat -> Moment, outputDir: string, k: nat, from: Mark, to: Mark,
                              outcome: Option<Json>)
  {
    && k < |stockCodes|
    && PassOutcome(llm, readings, outputDir, stockCodes[k], Bundle(stockCodes[k], parts(base + k)), from.calls,
                   from.ticks, from.written, to.calls, to.ticks, to.written, outcome)
  }

  /** A pass's outcome, stated on the state it ran between, is a
      `PassBetween` of the marks of those states. */
  lemma PassBetweenOf(stockCodes: seq<string>, parts: nat -> Parts, base: nat, llm: DeepSeekClient,
                      readings: nat -> Moment, outputDir: string, k: nat, calls: seq<Request>, t: nat,
                      written: seq<(string, Document)>, calls': seq<Request>, t': nat,
                      written': seq<(string, Document)>, outcome: Option<Json>, had: bool)
    requires k < |stockCodes|
    requires had
    requires had == PassOutcome(llm, readings, outputDir, stockCodes[k], Bundle(stockCodes[k], parts(base + k)),
                                calls, t, written, calls', t', written', outcome)
    ensures PassBetween(stockCodes, parts, base, llm, readings, outputDir, k, Mark(calls, t, written),
                        Mark(calls', t', written'), outcome)
  {
  }

  /** `PassBetween` as a value, over the pass index, for `AllPasses`. */
  ghost function BatchPass(stockCodes: seq<string>, parts: nat -> Parts, base: nat, llm: DeepSeekClient,
                           readings: nat -> Moment, outputDir: string): (nat, Mark, Mark, Option<Json>) -> bool
  {
    (k: nat, from: Mark, to: Mark, outcome: Option<Json>) =>
      PassBetween(stockCodes, parts, base, llm, readings, outputDir, k, from, to, outcome)
  }

  /** Every pass `k` so far ran from `marks[k]` to `marks[k + 1]` and had
      `outcomes[k]`, as `had` allows. */
  ghost predicate AllPasses(outcomes: seq<Option<Json>>, marks: seq<Mark>, had: (nat, Mark, Mark, Option<Json>) -> bool)
  {
    && |marks| == |outcomes| + 1
    && forall k {:trigger had(k, marks[k], marks[k + 1], outcomes[k])} ::
         0 <= k < |outcomes| ==> had(k, marks[k], marks[k + 1], outcomes[k])
  }

  /** One more pass, from the last mark, extends the passes. */
  lemma AllPassesStep(outcomes: seq<Option<Json>>, marks: seq<Mark>, had: (nat, Mark, Mark, Option<Json>) -> bool,
                      outcome: Option<Json>, to: Mark)
    requires AllPasses(outcomes, marks, had)
    requires had(|outcomes|, marks[|outcomes|], to, outcome)
    ensures AllPasses(outcomes + [outcome], marks + [to], had)
  {
    assert forall k :: 0 <= k <= |outcomes| ==> (marks + [to])[k] == marks[k];
  }

  /** What the batch loop keeps true after its first `i` passes, apart from
      the current state: the first `i` codes were fetched after `fetched0`;
      the kept results, their positions, the outcomes and the marks between
      passes, starting at `mark0`, agree; and two files were written per kept
      result after `written0`. */
  ghost predicate Swept(results: seq<Json>, picked: seq<nat>, outcomes: seq<Option<Json>>, marks: seq<Mark>,
                        stockCodes: seq<string>, parts: nat -> Parts, base: nat,
                        had: (nat, Mark, Mark, Option<Json>) -> bool, i: nat,
                        fetched0: seq<string>, fetched: seq<string>, mark0: Mark,
                        written0: seq<(string, Document)>, written: seq<(string, Document)>)
  {
    && i <= |stockCodes| && fetched == fetched0 + stockCodes[..i]
    && marks != [] && marks[0] == mark0
    && Gathered(results, picked, stockCodes, parts, base, i)
    && |written| == |written0| + 2 * |results|
    && (results == [] ==> written == written0)
    && |outcomes| == i && Picks(results, picked, outcomes)
    && AllPasses(outcomes, marks, had)
  }

  /** One more pass of the batch loop, from the last mark to `to`, keeps
      `Swept`. */
  lemma SweptStep(results: seq<Json>, picked: seq<nat>, outcomes: seq<Option<Json>>, marks: seq<Mark>,
                  stockCodes: seq<string>, parts: nat -> Parts, base: nat,
                  had: (nat, Mark, Mark, Option<Json>) -> bool, i: nat,
                  fetched0: seq<string>, fetched: seq<string>, mark0: Mark,
                  written0: seq<(string, Document)>, written: seq<(string, Document)>,
                  results': seq<Json>, picked': seq<nat>, outcome: Option<Json>, fetched': seq<string>,
                  calls': seq<Request>, t': nat, written': seq<(string, Document)>)
    requires Swept(results, picked, outcomes, marks, stockCodes, parts, base, had, i, fetched0, fetched, mark0,
                   written0, written)
    requires i < |stockCodes| && fetched' == fetched + [stockCodes[i]]
    requires Gathered(results', picked', stockCodes, parts, base, i + 1)
    requires results' == (if outcome.Some? then results + [outcome.value] else results)
    requires picked' == (if outcome.Some? then picked + [i] else picked)
    requires had(i, marks[i], Mark(calls', t', written'), outcome)
    requires |written'| == |written| + 2 * (|results'| - |results|)
    requires results' == results ==> written' == written
    ensures Swept(results', picked', outcomes + [outcome], marks + [Mark(calls', t', written')], stockCodes, parts,
                  base, had, i + 1, fetched0, fetched', mark0, written0, written')
  {
    Chain(fetched0, fetched, fetched', stockCodes[..i], [stockCodes[i]]);
    PrefixGrows(stockCodes, i);
    PicksStep(results, picked, outcomes, outcome);
    AllPassesStep(outcomes, marks, had, outcome, Mark(calls', t', written'));
  }

  /** Position `k` is picked exactly when its pass kept an outcome. */
  lemma PickedAt(results: seq<Json>, picked: seq<nat>, outcomes: seq<Option<Json>>, k: nat)
    requires Picks(results, picked, outcomes) && k < |outcomes|
    ensures (k in picked) == outcomes[k].Some?
  {
    PicksEach(results, picked, outcomes);
  }

  /** Result `j` is the outcome kept at position `picked[j]`. */
  lemma ResultAt(results: seq<Json>, picked: seq<nat>, outcomes: seq<Option<Json>>, j: nat)
    requires Picks(results, picked, outcomes) && j < |results|
    ensures |picked| == |results| && picked[j] < |outcomes| && outcomes[picked[j]] == Some(results[j])
  {
    PicksEach(results, picked, outcomes);
  }

  /** Pass `k` had outcome `outcomes[k]`. */
  lemma PassAt(outcomes: seq<Option<Json>>, marks: seq<Mark>, had: (nat, Mark, Mark, Option<Json>) -> bool, k: nat)
    requires AllPasses(outcomes, marks, had) && k < |outcomes|
    ensures had(k, marks[k], marks[k + 1], outcomes[k])
  {
  }

  /** What a pass states of its analysis, begun with `calls` logged at tick
      `t` and ending with `calls'` at tick `t'`, is its `PassOutcome`. */
  lemma PassOfAnalysis(llm: DeepSeekClient, readings: nat -> Moment, outputDir: string, stockCode: string, data: Json,
                       calls: seq<Request>, t: nat, written: seq<(string, Document)>, calls': seq<Request>, t': nat,
                       written': seq<(string, Document)>, outcome: Option<Json>, stated: bool)
    requires outcome.Some? == (&& DeliberationSucceeds(llm, data, |calls|)
                               && var v := Deliberation(llm, data, |calls|);
                                  MarkdownFault(FinalResult(data, v.0, v.1, v.2, readings(t + 1).iso)).None?)
    requires outcome.None? ==> written' == written
    requires stated
    requires stated == (outcome.Some? ==>
                          && calls' == calls + DeliberationCalls(llm, data, |calls|)
                          && t' == t + 7
                          && var u := t' - 4;
                             var v := Deliberation(llm, data, |calls|);
                             Reported(outcome.value, stockCode, data, v.0, v.1, v.2, outputDir, readings(u - 2).iso,
                                      readings(u).day, readings(u + 1).hms, readings(u + 2).display, written,
                                      written'))
    ensures PassOutcome(llm, readings, outputDir, stockCode, data, calls, t, written, calls', t', written', outcome)
  {
  }

  /** What a batch pass states of its analysis of code `k`, begun with
      `calls` logged at tick `t` and ending with `calls'` at tick `t'`, is
      the pass `BatchPass` records between the marks of those states; a kept
      result can be summarised, carries its bundle and was filed with two
      files, and a dropped one wrote nothing. */
  lemma BatchPassOfAnalysis(stockCodes: seq<string>, parts: nat -> Parts, base: nat, llm: DeepSeekClient,
                            readings: nat -> Moment, outputDir: string, k: nat, calls: seq<Request>, t: nat,
                            written: seq<(string, Document)>, calls': seq<Request>, t': nat,
                            written': seq<(string, Document)>, outcome: Option<Json>, stated: bool)
    requires k < |stockCodes|
    requires var data := Bundle(stockCodes[k], parts(base + k));
             outcome.Some? == (&& DeliberationSucceeds(llm, data, |calls|)
                               && var v := Deliberation(llm, data, |calls|);
                                  MarkdownFault(FinalResult(data, v.0, v.1, v.2, readings(t + 1).iso)).None?)
    requires outcome.None? ==> written' == written
    requires stated
    requires stated == (outcome.Some? ==>
                          var data := Bundle(stockCodes[k], parts(base + k));
                          && calls' == calls + DeliberationCalls(llm, data, |calls|)
                          && t' == t + 7
                          && var u := t' - 4;
                             var v := Deliberation(llm, data, |calls|);
                             Reported(outcome.value, stockCodes[k], data, v.0, v.1, v.2, outputDir,
                                      readings(u - 2).iso, readings(u).day, readings(u + 1).hms,
                                      readings(u + 2).display, written, written'))
    ensures BatchPass(stockCodes, parts, base, llm, readings, outputDir)
              (k, Mark(calls, t, written), Mark(calls', t', written'), outcome)
    ensures outcome.Some? ==>
              && Summarizable(outcome.value)
              && Part(outcome.value, "stock_data") == Bundle(stockCodes[k], parts(base + k))
              && |written'| == |written| + 2
  {
    var data := Bundle(stockCodes[k], parts(base + k));
    PassOfAnalysis(llm, readings, outputDir, stockCodes[k], data, calls, t, written, calls', t', written', outcome,
                   true);
    PassBetweenOf(stockCodes, parts, base, llm, readings, outputDir, k, calls, t, written, calls', t', written',
                  outcome, true);
    BatchPassMeans(stockCodes, parts, base, llm, readings, outputDir, k, Mark(calls, t, written),
                   Mark(calls', t', written'), outcome);
    if outcome.Some? {
      KeptShape(llm, readings, outputDir, stockCodes[k], data, calls, t, written, calls', t', written', outcome.value,
                true);
    }
  }

  /** `BatchPass` holds of a pass exactly when `PassBetween` does. */
  lemma BatchPassMeans(stockCodes: seq<string>, parts: nat -> Parts, base: nat, llm: DeepSeekClient,
                       readings: nat -> Moment, outputDir: string, k: nat, from: Mark, to: Mark, outcome: Option<Json>)
    ensures BatchPass(stockCodes, parts, base, llm, readings, outputDir)(k, from, to, outcome) ==
            PassBetween(stockCodes, parts, base, llm, readings, outputDir, k, from, to, outcome)
  {
  }

  /** In a batch, code `k` is kept exactly when its analysis, begun where
      its pass began, succeeds. */
  lemma BatchKeeps(results: seq<Json>, picked: seq<nat>, outcomes: seq<Option<Json>>, marks: seq<Mark>,
                   stockCodes: seq<string>, parts: nat -> Parts, base: nat, llm: DeepSeekClient,
                   readings: nat -> Moment, outputDir: string, k: nat)
    requires Picks(results, picked, outcomes)
    requires AllPasses(outcomes, marks, BatchPass(stockCodes, parts, base, llm, readings, outputDir))
    requires k < |outcomes|
    ensures k < |stockCodes|
    ensures k in picked <==>
              PassSucceeds(llm, readings, Bundle(stockCodes[k], parts(base + k)), |marks[k].calls|, marks[k].ticks)
  {
    PickedAt(results, picked, outcomes, k);
    PassAt(outcomes, marks, BatchPass(stockCodes, parts, base, llm, readings, outputDir), k);
    BatchPassMeans(stockCodes, parts, base, llm, readings, outputDir, k, marks[k], marks[k + 1], outcomes[k]);
  }

  /** In a batch, result `j` is the reported analysis of code `picked[j]`,
      made by that code's pass. */
  lemma BatchResult(results: seq<Json>, picked: seq<nat>, outcomes: seq<Option<Json>>, marks: seq<Mark>,
                    stockCodes: seq<string>, parts: nat -> Parts, base: nat, llm: DeepSeekClient,
                    readings: nat -> Moment, outputDir: string, j: nat)
    requires Picks(results, picked, outcomes)
    requires AllPasses(outcomes, marks, BatchPass(stockCodes, parts, base, llm, readings, outputDir))
    requires j < |results|
    ensures |picked| == |results| && picked[j] < |outcomes| && picked[j] < |stockCodes|
    ensures var k := picked[j];
            var (from, to) := (marks[k], marks[k + 1]);
            PassKept(llm, readings, outputDir, stockCodes[k], Bundle(stockCodes[k], parts(base + k)), from.calls,
                     from.ticks, from.written, to.calls, to.ticks, to.written, results[j])
  {
    ResultAt(results, picked, outcomes, j);
    var k := picked[j];
    PassAt(outcomes, marks, BatchPass(stockCodes, parts, base, llm, readings, outputDir), k);
    BatchPassMeans(stockCodes, parts, base, llm, readings, outputDir, k, marks[k], marks[k + 1], outcomes[k]);
  }

  /** In a batch, a code that is dropped writes nothing. */
  lemma BatchDrops(results: seq<Json>, picked: seq<nat>, outcomes: seq<Option<Json>>, marks: seq<Mark>,
                   stockCodes: seq<string>, parts: nat -> Parts, base: nat, llm: DeepSeekClient,
                   readings: nat -> Moment, outputDir: string, k: nat)
    requires Picks(results, picked, outcomes)
    requires AllPasses(outcomes, marks, BatchPass(stockCodes, parts, base, llm, readings, outputDir))
    requires k < |outcomes| && k !in picked
    ensures marks[k + 1].written == marks[k].written
  {
    PickedAt(results, picked, outcomes, k);
    PassAt(outcomes, marks, BatchPass(stockCodes, parts, base, llm, readings, outputDir), k);
    BatchPassMeans(stockCodes, parts, base, llm, readings, outputDir, k, marks[k], marks[k + 1], outcomes[k]);
  }

  /** The analysis of code `k` of a batch, begun where its pass began,
      succeeds. */
  ghost predicate CodeSucceeds(stockCodes: seq<string>, parts: nat -> Parts, base: nat, llm: DeepSeekClient,
                               readings: nat -> Moment, marks: seq<Mark>, k: nat)
  {
    && k < |stockCodes| && k < |marks|
    && PassSucceeds(llm, readings, Bundle(stockCodes[k], parts(base + k)), |marks[k].calls|, marks[k].ticks)
  }

  /** A batch keeps some result, and so writes its summary, exactly when
      the analysis of some code succeeds. */
  lemma BatchSummarized(results: seq<Json>, picked: seq<nat>, outcomes: seq<Option<Json>>, marks: seq<Mark>,
                        stockCodes: seq<string>, parts: nat -> Parts, base: nat, llm: DeepSeekClient,
                        readings: nat -> Moment, outputDir: string)
    requires Picks(results, picked, outcomes) && |outcomes| == |stockCodes|
    requires AllPasses(outcomes, marks, BatchPass(stockCodes, parts, base, llm, readings, outputDir))
    ensures results != [] <==> exists k :: CodeSucceeds(stockCodes, parts, base, llm, readings, marks, k)
  {
    PicksEach(results, picked, outcomes);
    if results != [] {
      var k := picked[0];
      BatchKeeps(results, picked, outcomes, marks, stockCodes, parts, base, llm, readings, outputDir, k);
      assert CodeSucceeds(stockCodes, parts, base, llm, readings, marks, k);
    } else {
      forall k | CodeSucceeds(stockCodes, parts, base, llm, readings, marks, k)
        ensures false
      {
        BatchKeeps(results, picked, outcomes, marks, stockCodes, parts, base, llm, readings, outputDir, k);
      }
    }
  }

  /** Some result is kept exactly when some pass kept an outcome. */
  lemma SomeKept(results: seq<Json>, picked: seq<nat>, outcomes: seq<Option<Json>>)
    requires Picks(results, picked, outcomes)
    ensures results != [] <==> exists k :: 0 <= k < |outcomes| && outcomes[k].Some?
  {
    PicksEach(results, picked, outcomes);
    if results != [] {
      assert outcomes[picked[0]].Some?;
    }
  }

}
