/** The three analyst agents (agents/analysts.py). Each reads the market-data
    bundle with `dict.get`, shapes the series it passes on, sends one request
    through the client and returns the decoded reply. What a request carries
    is the list of values its context template interpolates, in template
    order. */
module Analysts {
  import opened Text
  import opened JsonValues
  import opened LlmClient

  const NotAvailable := JStr("N/A")
  /** How many recent rows of a series the technical prompt shows. */
  const RecentRows: nat := 10
  /** How many news items the news prompt shows. */
  const NewsItems: nat := 10

  /** `d.get(key, empty) or empty` on a dictionary. */
  function Field(d: Json, key: string, empty: Json): Json
    requires d.JObj?
  {
    GetOr(d, key, empty).value
  }

  /** A value `Field` reads as empty: missing, `None`, or falsy. */
  predicate Blank(d: Json, key: string)
    requires d.JObj?
  {
    match Lookup(d.fields, key)
    case None => true
    case Some(v) => !Truthy(v)
  }

  /** Values on which `v[-10:] if len(v) > 10 else v` succeeds. */
  predicate Recentable(v: Json) {
    v.JList? || v.JStr? || (v.JObj? && |v.fields| <= RecentRows)
  }

  /** `items` is the last min(n, |all|) elements of `all`, in order. */
  predicate IsTail(items: seq<Json>, all: seq<Json>, n: nat) {
    |items| == (if |all| <= n then |all| else n) && items == all[|all| - |items|..]
  }

  /** `items` is the first min(n, |all|) elements of `all`, in order. */
  predicate IsHead(items: seq<Json>, all: seq<Json>, n: nat) {
    |items| == (if |all| <= n then |all| else n) && items == all[..|items|]
  }

  /** Whether the technical analyst gets as far as its request. */
  predicate TechnicalInputUsable(stockData: Json) {
    stockData.JObj?
    && Field(stockData, "basic_info", EmptyDict).JObj?
    && Field(stockData, "realtime_quote", EmptyDict).JObj?
    && Recentable(Field(stockData, "daily_data", EmptyList))
    && (Truthy(Field(stockData, "intraday_data", EmptyList)) ==>
          Recentable(Field(stockData, "intraday_data", EmptyList)))
  }

  /** The ten values every technical context starts with, `bars` last. */
  function TechnicalValues(stockData: Json, basic: Json, quote: Json, bars: Json): (values: seq<Json>)
    requires stockData.JObj? && basic.JObj? && quote.JObj?
    ensures |values| == 10 && values[9] == bars
  {
    var trading := Get(stockData, "is_trading_time", JBool(false)).value;
    [Get(stockData, "ts_code", NotAvailable).value,
     Get(basic, "name", NotAvailable).value,
     Get(basic, "industry", NotAvailable).value,
     Get(stockData, "fetch_time", NotAvailable).value,
     JStr(if Truthy(trading) then "是" else "否"),
     Get(quote, "close", NotAvailable).value,
     Get(quote, "pct_chg", NotAvailable).value,
     Get(quote, "vol", NotAvailable).value,
     Get(quote, "amount", NotAvailable).value,
     bars]
  }

  /** The values of the technical context (agents/analysts.py:20-52): code,
      name, industry, fetch time, trading flag, the four quote fields, the
      recent daily bars and, only when there is intraday data, its recent rows. */
  function TechnicalContext(stockData: Json): (r: Result<seq<Json>>)
    ensures r.Ok? <==> TechnicalInputUsable(stockData)
    ensures r.Ok? ==>
              var intraday := Field(stockData, "intraday_data", EmptyList);
              |r.value| == (if Truthy(intraday) then 11 else 10)
    ensures r.Ok? && Field(stockData, "daily_data", EmptyList).JList? ==>
              r.value[9].JList?
              && IsTail(r.value[9].items, Field(stockData, "daily_data", EmptyList).items, RecentRows)
    ensures r.Ok? && |r.value| == 11 && Field(stockData, "intraday_data", EmptyList).JList? ==>
              r.value[10].JList?
              && IsTail(r.value[10].items, Field(stockData, "intraday_data", EmptyList).items, RecentRows)
  {
    if !stockData.JObj? then Err(AttributeError("get"))
    else
      var basic := Field(stockData, "basic_info", EmptyDict);
      var daily := Field(stockData, "daily_data", EmptyList);
      var quote := Field(stockData, "realtime_quote", EmptyDict);
      var intraday := Field(stockData, "intraday_data", EmptyList);
      if !basic.JObj? || !quote.JObj? then Err(AttributeError("get"))
      else
        match LastItems(daily, RecentRows)
        case Err(f) => Err(f)
        case Ok(bars) =>
          var values := TechnicalValues(stockData, basic, quote, bars);
          if !Truthy(intraday) then Ok(values)
          else
            match LastItems(intraday, RecentRows)
            case Err(f) => Err(f)
            case Ok(rows) => Ok(values + [rows])
  }

  /** The values of the fundamental context (agents/analysts.py:92-107): code,
      name, industry, listing date, then the financial data and indicators
      exactly as fetched. */
  function FundamentalContext(stockData: Json): (r: Result<seq<Json>>)
    ensures r.Ok? <==> stockData.JObj? && Field(stockData, "basic_info", EmptyDict).JObj?
    ensures r.Ok? ==> |r.value| == 6
                      && r.value[4] == Field(stockData, "financial_data", EmptyDict)
                      && r.value[5] == Field(stockData, "financial_indicators", EmptyList)
  {
    if !stockData.JObj? then Err(AttributeError("get"))
    else
      var basic := Field(stockData, "basic_info", EmptyDict);
      if !basic.JObj? then Err(AttributeError("get"))
      else
        Ok([Get(stockData, "ts_code", NotAvailable).value,
            Get(basic, "name", NotAvailable).value,
            Get(basic, "industry", NotAvailable).value,
            Get(basic, "list_date", NotAvailable).value,
            Field(stockData, "financial_data", EmptyDict),
            Field(stockData, "financial_indicators", EmptyList)])
  }

  /** The neutral assessment returned without asking the model when there is no news. */
  const NeutralNews := JObj([("sentiment", JStr("中性")),
                             ("key_events", JStr("无重大新闻事件")),
                             ("impact_analysis", JStr("无明显影响")),
                             ("news_score", JInt(5)),
                             ("summary", JStr("近期无重大新闻，市场情绪中性"))])

  /** What the news analyst does before any call: answer at once, or ask. */
  datatype NewsPlan = Skip(answer: Json) | Ask(values: seq<Json>)

  /** The news analyst's decision and context (agents/analysts.py:149-168): no
      news means the fixed neutral answer; otherwise code, name and the first
      ten items. */
  function NewsContext(stockData: Json): (r: Result<NewsPlan>)
    ensures stockData.JObj? && Blank(stockData, "news") ==> r == Ok(Skip(NeutralNews))
    ensures r.Ok? && r.value.Skip? ==> r.value.answer == NeutralNews
    ensures r.Err? <==>
              !stockData.JObj?
              || (Truthy(Field(stockData, "news", EmptyList))
                  && !(Field(stockData, "basic_info", EmptyDict).JObj?
                       && (Field(stockData, "news", EmptyList).JList? || Field(stockData, "news", EmptyList).JStr?)))
    ensures r.Ok? && r.value.Ask? ==>
              |r.value.values| == 3
              && (Field(stockData, "news", EmptyList).JList? ==>
                    r.value.values[2].JList?
                    && IsHead(r.value.values[2].items, Field(stockData, "news", EmptyList).items, NewsItems))
  {
    if !stockData.JObj? then Err(AttributeError("get"))
    else
      var basic := Field(stockData, "basic_info", EmptyDict);
      var news := Field(stockData, "news", EmptyList);
      if !Truthy(news) then Ok(Skip(NeutralNews))
      else if !basic.JObj? then Err(AttributeError("get"))
      else
        match FirstItems(news, NewsItems)
        case Err(f) => Err(f)
        case Ok(first) =>
          Ok(Ask([Get(stockData, "ts_code", NotAvailable).value, Get(basic, "name", NotAvailable).value, first]))
  }

  /** Whether the news analyst calls the model for this bundle. */
  predicate AsksNews(stockData: Json) {
    NewsContext(stockData).Ok? && NewsContext(stockData).value.Ask?
  }


  /** Missing or `None` inputs are read as empty: a bundle without them still
      yields a technical context, with no bars and no intraday section, and a
      fundamental context with empty financials. */
  lemma MissingInputsAreEmpty(stockData: Json)
    requires stockData.JObj?
    requires Blank(stockData, "basic_info") && Blank(stockData, "daily_data")
    requires Blank(stockData, "realtime_quote") && Blank(stockData, "intraday_data")
    requires Blank(stockData, "financial_data") && Blank(stockData, "financial_indicators")
    ensures TechnicalContext(stockData).Ok?
    ensures |TechnicalContext(stockData).value| == 10 && TechnicalContext(stockData).value[9] == EmptyList
    ensures FundamentalContext(stockData).Ok?
    ensures FundamentalContext(stockData).value[4] == EmptyDict
    ensures FundamentalContext(stockData).value[5] == EmptyList
  {
    assert Field(stockData, "basic_info", EmptyDict) == EmptyDict;
    assert Field(stockData, "realtime_quote", EmptyDict) == EmptyDict;
    assert Field(stockData, "daily_data", EmptyList) == EmptyList;
    assert Field(stockData, "intraday_data", EmptyList) == EmptyList;
    assert Field(stockData, "financial_data", EmptyDict) == EmptyDict;
    assert Field(stockData, "financial_indicators", EmptyList) == EmptyList;
  }

  class TechnicalAnalyst {
    const llm: DeepSeekClient

    constructor (llm: DeepSeekClient)
      ensures this.llm == llm
    {
      this.llm := llm;
    }

    /** `analyze`: one call at the default temperature when the bundle can be
        read, none otherwise; the decoded reply is returned unchanged. */
    method Analyze(stockData: Json) returns (r: Result<Json>)
      modifies llm
      ensures TechnicalContext(stockData).Err? ==>
                r == Err(TechnicalContext(stockData).fault) && llm.calls == old(llm.calls)
      ensures TechnicalContext(stockData).Ok? ==>
                llm.calls == old(llm.calls)
                             + [RoleRequest(Role.TechnicalAnalyst, TechnicalContext(stockData).value, DefaultTemperature)]
                && r == Announced(ParseJsonResponse(llm.decode, Answer(llm.replies, |old(llm.calls)|)))
      ensures r.Ok? ==> Roles(llm.calls) == Roles(old(llm.calls)) + [Some(Role.TechnicalAnalyst)]
    {
      match TechnicalContext(stockData)
      case Err(f) =>
        r := Err(f);
      case Ok(values) =>
        var response := llm.AnalyzeWithSystemPrompt(Instruction(Role.TechnicalAnalyst), Data(values));
        r := Announced(ParseJsonResponse(llm.decode, response));
        RoleAppended(old(llm.calls), Role.TechnicalAnalyst, values, DefaultTemperature);
    }
  }

  class FundamentalAnalyst {
    const llm: DeepSeekClient

    constructor (llm: DeepSeekClient)
      ensures this.llm == llm
    {
      this.llm := llm;
    }

    /** `analyze`: one call at the default temperature when the bundle can be
        read, none otherwise; the decoded reply is returned unchanged. */
    method Analyze(stockData: Json) returns (r: Result<Json>)
      modifies llm
      ensures FundamentalContext(stockData).Err? ==>
                r == Err(FundamentalContext(stockData).fault) && llm.calls == old(llm.calls)
      ensures FundamentalContext(stockData).Ok? ==>
                llm.calls == old(llm.calls)
                             + [RoleRequest(Role.FundamentalAnalyst, FundamentalContext(stockData).value, DefaultTemperature)]
                && r == Announced(ParseJsonResponse(llm.decode, Answer(llm.replies, |old(llm.calls)|)))
      ensures r.Ok? ==> Roles(llm.calls) == Roles(old(llm.calls)) + [Some(Role.FundamentalAnalyst)]
    {
      match FundamentalContext(stockData)
      case Err(f) =>
        r := Err(f);
      case Ok(values) =>
        var response := llm.AnalyzeWithSystemPrompt(Instruction(Role.FundamentalAnalyst), Data(values));
        r := Announced(ParseJsonResponse(llm.decode, response));
        RoleAppended(old(llm.calls), Role.FundamentalAnalyst, values, DefaultTemperature);
    }
  }

  class NewsAnalyst {
    const llm: DeepSeekClient

    constructor (llm: DeepSeekClient)
      ensures this.llm == llm
    {
      this.llm := llm;
    }

    /** `analyze`: without news, the neutral answer and no call; with news, one
        call at the default temperature and the decoded reply unchanged. */
    method Analyze(stockData: Json) returns (r: Result<Json>)
      modifies llm
      ensures NewsContext(stockData).Err? ==>
                r == Err(NewsContext(stockData).fault) && llm.calls == old(llm.calls)
      ensures NewsContext(stockData) == Ok(Skip(NeutralNews)) ==>
                r == Ok(NeutralNews) && llm.calls == old(llm.calls)
      ensures NewsContext(stockData).Ok? && NewsContext(stockData).value.Ask? ==>
                llm.calls == old(llm.calls)
                             + [RoleRequest(Role.NewsAnalyst, NewsContext(stockData).value.values, DefaultTemperature)]
                && r == Announced(ParseJsonResponse(llm.decode, Answer(llm.replies, |old(llm.calls)|)))
      ensures r.Ok? ==>
                Roles(llm.calls) == Roles(old(llm.calls)) + (if AsksNews(stockData) then [Some(Role.NewsAnalyst)] else [])
    {
      match NewsContext(stockData)
      case Err(f) =>
        r := Err(f);
      case Ok(Skip(answer)) =>
        r := Ok(answer);
      case Ok(Ask(values)) =>
        var response := llm.AnalyzeWithSystemPrompt(Instruction(Role.NewsAnalyst), Data(values));
        r := Announced(ParseJsonResponse(llm.decode, response));
        RoleAppended(old(llm.calls), Role.NewsAnalyst, values, DefaultTemperature);
    }
  }
}
