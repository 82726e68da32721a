/** The Tushare market-data client (data/tushare_client.py) as an oracle. Each
    of its getters catches its own exceptions and answers `None` (or `[]` for
    news), so `get_comprehensive_data` always returns the same eight-key
    dictionary; what the remote service answers for the k-th fetch is fixed in
    advance. The cache write is recorded, not performed. */
module Market {
  import opened JsonValues

  /** What the getters answer for one fetch: the fetch time and the values
      stored under the bundle's keys (`JNull` where a getter gave `None`). */
  datatype Parts = Parts(fetchTime: string, basicInfo: Json, dailyData: Json, financialData: Json,
                         indicators: Json, quote: Json, news: Json)

  const BundleKeys := ["ts_code", "fetch_time", "basic_info", "daily_data", "financial_data",
                       "financial_indicators", "realtime_quote", "news"]

  /** The dictionary `get_comprehensive_data` builds, keys in insertion order
      (data/tushare_client.py:132-150). */
  function Bundle(code: string, p: Parts): Json {
    JObj([("ts_code", JStr(code)), ("fetch_time", JStr(p.fetchTime)), ("basic_info", p.basicInfo),
          ("daily_data", p.dailyData), ("financial_data", p.financialData),
          ("financial_indicators", p.indicators), ("realtime_quote", p.quote), ("news", p.news)])
  }

  /** The company and financial getters' answers are found under their own keys. */
  lemma BundleLookups(code: string, p: Parts)
    ensures var d := Bundle(code, p);
            && Get(d, "basic_info", JNull) == Ok(p.basicInfo) && Get(d, "daily_data", JNull) == Ok(p.dailyData)
            && Get(d, "financial_data", JNull) == Ok(p.financialData)
            && Get(d, "financial_indicators", JNull) == Ok(p.indicators)
  {
    var fields := Bundle(code, p).fields;
    LookupFirst(fields, 2, "basic_info");
    LookupFirst(fields, 3, "daily_data");
    LookupFirst(fields, 4, "financial_data");
    LookupFirst(fields, 5, "financial_indicators");
  }

  /** The fetch time, the quote and the news are found under their own keys. */
  lemma BundleTimelyLookups(code: string, p: Parts)
    ensures var d := Bundle(code, p);
            && Get(d, "fetch_time", JNull) == Ok(JStr(p.fetchTime))
            && Get(d, "realtime_quote", JNull) == Ok(p.quote) && Get(d, "news", JNull) == Ok(p.news)
  {
    var fields := Bundle(code, p).fields;
    LookupFirst(fields, 1, "fetch_time");
    LookupFirst(fields, 6, "realtime_quote");
    LookupFirst(fields, 7, "news");
  }

  /** Every bundle has the same eight keys, in order, and carries its code. */
  lemma BundleShape(code: string, p: Parts)
    ensures var d := Bundle(code, p);
            && d.JObj? && Keys(d.fields) == BundleKeys
            && Get(d, "ts_code", JNull) == Ok(JStr(code))
  {
  }

  class TushareClient {
    /** The getters' answers for the k-th fetch. */
    const parts: nat -> Parts
    /** The codes fetched so far, in order. */
    var fetched: seq<string>
    /** The bundles written to the cache so far, in order. */
    var cached: seq<(string, Json)>

    constructor (parts: nat -> Parts)
      ensures this.parts == parts && fetched == [] && cached == []
    {
      this.parts := parts;
      fetched := [];
      cached := [];
    }

    /** `get_comprehensive_data`: never raises; the bundle for this fetch. */
    method GetComprehensiveData(code: string) returns (data: Json)
      modifies this
      ensures fetched == old(fetched) + [code] && cached == old(cached)
      ensures data == Bundle(code, parts(|old(fetched)|))
    {
      data := Bundle(code, parts(|fetched|));
      fetched := fetched + [code];
    }

    /** `save_data_to_cache`: the bundle is recorded under its code. */
    method SaveDataToCache(code: string, data: Json)
      modifies this
      ensures cached == old(cached) + [(code, data)] && fetched == old(fetched)
    {
      cached := cached + [(code, data)];
    }
  }
}
