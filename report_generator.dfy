/** The report generator object (reports/report_generator.py:10-470). Every
    `datetime.now()` is a reading of the shared clock; every file it writes is
    recorded, in order, as the path and the document written there. */
module ReportGeneration {
  import opened Text
  import opened JsonValues
  import opened Clocks
  import opened Reports
  import opened ReportSummary
  import opened ReportIndex

  /** What a written file holds. The per-stock Markdown report and the
      summary page are recorded by the values their fixed templates render;
      the summary page's text is `SummaryText(mode, generatedAt, results)`,
      which `SummaryRows` builds. */
  datatype Document =
    | MarkdownReport(stockCode: string, data: Json, generatedAt: string)
    | JsonDump(data: Json)
    | SummaryPage(mode: string, generatedAt: string, results: seq<Json>)
    | IndexPage(updated: string, sections: seq<Section>)

  /** The first statements of `_format_markdown_report`
      (reports/report_generator.py:56-63): `.get` is called on the result, on
      its stock data and on its analysis entry. */
  function EarlyFault(data: Json): (r: Option<Fault>)
    ensures r.None? <==> data.JObj? && Part(data, "stock_data").JObj? && Part(data, "analysis").JObj?
  {
    if !data.JObj? || !Part(data, "stock_data").JObj? || !Part(data, "analysis").JObj? then
      Some(AttributeError("get"))
    else None
  }

  /** `_format_list(d.get(key, []))` on a dictionary `d`. */
  function ListFault(d: Json, key: string): Option<Fault>
    requires d.JObj?
  {
    match FormatList(Get(d, key, EmptyList).value)
    case Ok(_) => None
    case Err(f) => Some(f)
  }

  /** `d.get(key, {})` must be a dictionary for the `.get` after it. */
  function DictFault(d: Json, key: string): Option<Fault>
    requires d.JObj?
  {
    if Part(d, key).JObj? then None else Some(AttributeError("get"))
  }

  /** The first fault, in template order, of the report's placeholders
      (reports/report_generator.py:72-250): the receivers of `.get`, the
      emoji lookups, which hash their key, and `_format_list`, which
      iterates its argument. The bars never raise. */
  function TemplateFault(data: Json): (r: Option<Fault>)
    requires EarlyFault(data).None?
    ensures r.None? ==> Part(Part(data, "stock_data"), "basic_info").JObj?
                        && Part(Part(data, "stock_data"), "realtime_quote").JObj?
                        && Part(data, "decision").JObj? && Part(data, "risk_assessment").JObj?
  {
    var stock := Part(data, "stock_data");
    var analysis := Part(data, "analysis");
    var decision := Part(data, "decision");
    var risk := Part(data, "risk_assessment");
    if DictFault(stock, "basic_info").Some? then DictFault(stock, "basic_info")
    else if DictFault(stock, "realtime_quote").Some? then DictFault(stock, "realtime_quote")
    else if !decision.JObj? then Some(AttributeError("get"))
    else if ActionEmoji(Get(decision, "action", JStr("")).value).Err? then
      Some(ActionEmoji(Get(decision, "action", JStr("")).value).fault)
    else if ListFault(decision, "key_factors").Some? then ListFault(decision, "key_factors")
    else if !risk.JObj? then Some(AttributeError("get"))
    else if RiskEmoji(Get(risk, "overall_risk_level", JStr("")).value).Err? then
      Some(RiskEmoji(Get(risk, "overall_risk_level", JStr("")).value).fault)
    else if ListFault(risk, "risk_control_suggestions").Some? then ListFault(risk, "risk_control_suggestions")
    else if ListFault(risk, "monitoring_points").Some? then ListFault(risk, "monitoring_points")
    else AnalysisFault(analysis)
  }

  /** The analysts' and the debate's placeholders
      (reports/report_generator.py:130-224). */
  function AnalysisFault(analysis: Json): Option<Fault>
    requires analysis.JObj?
  {
    var analysts := Part(analysis, "analysts");
    var debate := Part(analysis, "debate");
    if !analysts.JObj? then Some(AttributeError("get"))
    else if DictFault(analysts, "technical").Some? then DictFault(analysts, "technical")
    else if DictFault(analysts, "fundamental").Some? then DictFault(analysts, "fundamental")
    else if DictFault(analysts, "news").Some? then DictFault(analysts, "news")
    else if !debate.JObj? then Some(AttributeError("get"))
    else if DictFault(debate, "bull_initial").Some? then DictFault(debate, "bull_initial")
    else if ListFault(Part(debate, "bull_initial"), "bull_points").Some? then
      ListFault(Part(debate, "bull_initial"), "bull_points")
    else if ListFault(Part(debate, "bull_initial"), "catalysts").Some? then
      ListFault(Part(debate, "bull_initial"), "catalysts")
    else if DictFault(debate, "bear_initial").Some? then DictFault(debate, "bear_initial")
    else if ListFault(Part(debate, "bear_initial"), "bear_points").Some? then
      ListFault(Part(debate, "bear_initial"), "bear_points")
    else if ListFault(Part(debate, "bear_initial"), "negative_catalysts").Some? then
      ListFault(Part(debate, "bear_initial"), "negative_catalysts")
    else DictFault(debate, "debate_summary")
  }

  /** Whether `_format_markdown_report` raises, and with what. */
  function MarkdownFault(data: Json): (r: Option<Fault>)
    ensures r.None? ==> data.JObj? && Part(data, "stock_data").JObj?
                        && Part(Part(data, "stock_data"), "basic_info").JObj?
                        && Part(data, "decision").JObj? && Part(data, "risk_assessment").JObj?
  {
    if EarlyFault(data).Some? then EarlyFault(data) else TemplateFault(data)
  }

  /** A stock whose quote the data service could not give (`None`) fails
      the report, although the analysts and the trader read it with `or {}`. */
  lemma MissingQuoteFailsReport(data: Json)
    requires EarlyFault(data).None?
    requires Lookup(Part(data, "stock_data").fields, "realtime_quote") == Some(JNull)
    ensures MarkdownFault(data) == Some(AttributeError("get"))
  {
  }

  /** A `None` debate summary fails the report as well. */
  lemma MissingDebateSummaryFailsReport(data: Json)
    requires EarlyFault(data).None?
    requires Part(Part(data, "analysis"), "debate").JObj?
    requires Lookup(Part(Part(data, "analysis"), "debate").fields, "debate_summary") == Some(JNull)
    ensures MarkdownFault(data).Some?
  {
    var analysis := Part(data, "analysis");
    assert DictFault(Part(analysis, "debate"), "debate_summary").Some?;
    assert AnalysisFault(analysis).Some?;
  }

  /** The last two files written are the summary page of `results` and the
      index, stamped from the clock readings `t` to `t + 3`. */
  ghost predicate SummaryFiled(written: seq<(string, Document)>, outputDir: string, readings: nat -> Moment, t: nat,
                               mode: string, results: seq<Json>, listing: seq<Node>)
  {
    && |written| >= 2
    && written[|written| - 2] == (SummaryPath(outputDir, readings(t).day, readings(t + 1).hms),
                                  SummaryPage(mode, readings(t + 2).display, results))
    && written[|written| - 1] == (PathJoin(outputDir, "README.md"), IndexPage(readings(t + 3).display, Sections(listing)))
  }

  /** Writing the summary page and then the index leaves them last. */
  lemma SummaryFiledAfter(before: seq<(string, Document)>, outputDir: string, readings: nat -> Moment, t: nat,
                          mode: string, results: seq<Json>, listing: seq<Node>)
    ensures SummaryFiled(before + [(SummaryPath(outputDir, readings(t).day, readings(t + 1).hms),
                                    SummaryPage(mode, readings(t + 2).display, results))]
                                + [(PathJoin(outputDir, "README.md"), IndexPage(readings(t + 3).display, Sections(listing)))],
                         outputDir, readings, t, mode, results, listing)
  {
  }

  class ReportGenerator {
    const outputDir: string
    /** The clock behind `datetime.now()`, shared with the rest of the program. */
    const clock: Clock
    /** The files written so far, in order. */
    var written: seq<(string, Document)>

    constructor (outputDir: string, clock: Clock)
      ensures this.outputDir == outputDir && this.clock == clock && written == []
    {
      this.outputDir := outputDir;
      this.clock := clock;
      written := [];
    }

    /** `generate_report`: two clock readings name the files; the Markdown
        report, then the JSON dump, are written when the template can be
        filled, and the Markdown path is returned. */
    method GenerateReport(stockCode: string, result: Json) returns (r: Result<string>)
      modifies this, clock
      ensures var t := old(clock.ticks);
              var day := clock.readings(t).day;
              var hms := clock.readings(t + 1).hms;
              && (r.Ok? <==> EarlyFault(result).None? && TemplateFault(result).None?)
              && (r.Ok? ==> r.value == MarkdownPath(outputDir, stockCode, day, hms)
                            && clock.ticks == t + 3
                            && written == old(written)
                                          + [(MarkdownPath(outputDir, stockCode, day, hms),
                                              MarkdownReport(stockCode, result, clock.readings(t + 2).display))]
                                          + [(JsonPath(outputDir, stockCode, day, hms), JsonDump(result))])
              && (r.Err? ==> written == old(written))
              && (EarlyFault(result).Some? ==> r == Err(EarlyFault(result).value) && clock.ticks == t + 2)
              && (EarlyFault(result).None? && TemplateFault(result).Some? ==>
                    r == Err(TemplateFault(result).value) && clock.ticks == t + 3)
    {
      var date := clock.Now();
      var time := clock.Now();
      assert time == clock.readings(old(clock.ticks) + 1);
      var path := MarkdownPath(outputDir, stockCode, date.day, time.hms);
      var jsonPath := JsonPath(outputDir, stockCode, date.day, time.hms);
      if EarlyFault(result).Some? {
        return Err(EarlyFault(result).value);
      }
      r := WriteReport(stockCode, result, path, jsonPath);
    }

    /** The rest of `generate_report` once the result's first entries have
        been read: the stamp, the template, and the two files. */
    method WriteReport(stockCode: string, result: Json, path: string, jsonPath: string) returns (r: Result<string>)
      requires EarlyFault(result).None?
      modifies this, clock
      ensures clock.ticks == old(clock.ticks) + 1
      ensures r.Ok? <==> TemplateFault(result).None?
      ensures r.Ok? ==> r.value == path
                        && written == old(written)
                                      + [(path, MarkdownReport(stockCode, result, clock.readings(old(clock.ticks)).display))]
                                      + [(jsonPath, JsonDump(result))]
      ensures r.Err? ==> Some(r.fault) == TemplateFault(result) && written == old(written)
    {
      var stamp := clock.Now();
      var fault := TemplateFault(result);
      if fault.Some? {
        return Err(fault.value);
      }
      written := written + [(path, MarkdownReport(stockCode, result, stamp.display))];
      written := written + [(jsonPath, JsonDump(result))];
      r := Ok(path);
    }

    /** `generate_summary_report`: the page is built row by row; a result
        whose row cannot be read raises before anything is written. Then
        the page and the index are written. */
    method GenerateSummaryReport(results: seq<Json>, mode: string, listing: seq<Node>) returns (r: Result<string>)
      modifies this, clock
      ensures r.Ok? <==> AllSummarizable(results)
      ensures r.Err? ==> written == old(written) && clock.ticks == old(clock.ticks) + 3
      ensures r.Ok? ==>
                && clock.ticks == old(clock.ticks) + 4
                && var t := clock.ticks - 4;
                   var path := SummaryPath(outputDir, clock.readings(t).day, clock.readings(t + 1).hms);
                   && r.value == path
                   && written == old(written)
                                 + [(path, SummaryPage(mode, clock.readings(t + 2).display, results))]
                                 + [(PathJoin(outputDir, "README.md"),
                                     IndexPage(clock.readings(t + 3).display, Sections(listing)))]
    {
      var date := clock.Now();
      var time := clock.Now();
      var path := SummaryPath(outputDir, date.day, time.hms);
      var now := clock.Now();
      var content := SummaryRows(results, mode, now.display);
      if content.Err? {
        return Err(content.fault);
      }
      written := written + [(path, SummaryPage(mode, now.display, results))];
      GenerateIndexFile(listing);
      r := Ok(path);
    }

    /** `_generate_index_file`: one clock reading for the update stamp, the
        scan of the listing, and the index written as README.md. */
    method GenerateIndexFile(listing: seq<Node>)
      modifies this, clock
      ensures clock.ticks == old(clock.ticks) + 1
      ensures written == old(written) + [(PathJoin(outputDir, "README.md"),
                                          IndexPage(clock.readings(old(clock.ticks)).display, Sections(listing)))]
    {
      var now := clock.Now();
      var sections := CollectSections(listing);
      written := written + [(PathJoin(outputDir, "README.md"), IndexPage(now.display, sections))];
    }
  }

  /** `generate_summary_report`'s page text (reports/report_generator.py:317-370):
      the preamble, the rows, and the closing counts; or the fault of the
      first row that cannot be read. */
  method SummaryRows(results: seq<Json>, mode: string, now: string) returns (r: Result<string>)
    ensures r.Ok? <==> AllSummarizable(results)
    ensures r.Ok? ==> r.value == SummaryText(mode, now, results)
    ensures r.Err? ==> r.fault.AttributeError?
  {
    var rows := TableRows(results);
    if rows.Err? {
      return Err(rows.fault);
    }
    var buy := CountAction(results, Buy);
    var hold := CountAction(results, Hold);
    var sell := CountAction(results, Sell);
    r := Ok(Unlines(PreambleLines(mode, now, |results|)) + rows.value + FooterHead + CountsText(buy, hold, sell));
  }

  /** The `content +=` loop over the results: one table line per result, or
      the fault of the first row that cannot be read. */
  method TableRows(results: seq<Json>) returns (r: Result<string>)
    ensures r.Ok? <==> AllSummarizable(results)
    ensures r.Ok? ==> r.value == Unlines(RowLines(AllCells(results)))
    ensures r.Err? ==> r.fault.AttributeError?
  {
    var rows := "";
    for i := 0 to |results|
      invariant AllSummarizable(results[..i])
      invariant rows == Unlines(RowLines(AllCells(results[..i])))
    {
      var cells := SummaryCells(results[i]);
      if cells.Err? {
        assert !Summarizable(results[i]);
        return Err(cells.fault);
      }
      RowsStep(results, i, rows);
      rows := rows + (RowLine(cells.value) + "\n");
    }
    assert results[..|results|] == results;
    r := Ok(rows);
  }

  /** One more readable result: the rows so far stay readable and gain its
      line. */
  lemma RowsStep(results: seq<Json>, i: nat, rows: string)
    requires i < |results| && AllSummarizable(results[..i]) && Summarizable(results[i])
    requires rows == Unlines(RowLines(AllCells(results[..i])))
    ensures AllSummarizable(results[..i + 1])
    ensures rows + (RowLine(SummaryCells(results[i]).value) + "\n") == Unlines(RowLines(AllCells(results[..i + 1])))
  {
    PrefixGrows(results, i);
    SummarizableAppended(results[..i], results[i]);
    CellsAppended(results, i);
    RowAppended(AllCells(results[..i]), SummaryCells(results[i]).value);
  }

  /** The cells of one more result are the cells so far and its own. */
  lemma CellsAppended(results: seq<Json>, i: nat)
    requires i < |results| && AllSummarizable(results[..i + 1])
    ensures AllCells(results[..i + 1]) == AllCells(results[..i]) + [SummaryCells(results[i]).value]
  {
    var a := results[..i + 1];
    assert a[..i] == results[..i];
    assert a[i] == results[i];
  }

  /** Rendering one more row of cells appends its line. */
  lemma LinesAppended(cells: seq<Cells>, cell: Cells)
    ensures RowLines(cells + [cell]) == RowLines(cells) + [RowLine(cell)]
  {
  }

  /** Rendering one more row appends its line, newline included, to the
      rows rendered so far. */
  lemma RowAppended(cells: seq<Cells>, cell: Cells)
    ensures Unlines(RowLines(cells + [cell])) == Unlines(RowLines(cells)) + (RowLine(cell) + "\n")
  {
    LinesAppended(cells, cell);
    UnlinesAppend(RowLines(cells), RowLine(cell));
    Associative(Unlines(RowLines(cells)), RowLine(cell), "\n");
  }
}
