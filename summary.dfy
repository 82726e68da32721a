/** The batch summary page of the report generator
    (reports/report_generator.py:303-380): one table row per result, in order,
    then the buy, hold and sell counts. The page text is built here, with
    `str()` as `JsonValues.Str` models it; writing it to disk is recorded by
    the generator class. */
module ReportSummary {
  import opened Text
  import opened JsonValues
  import opened Reports

  const NA := JStr("N/A")

  /** `d.get(key, {})`, with no `or {}`: a stored `None` stays `None`. */
  function Part(d: Json, key: string): Json
    requires d.JObj?
  {
    Get(d, key, EmptyDict).value
  }

  /** The six cells of one row of the summary table, as text. */
  datatype Cells = Cells(code: string, name: string, action: string, confidence: string,
                         risk: string, link: string)

  /** Whether the row loop can read `result` (reports/report_generator.py:332-345):
      the result, its stock data, the basic info, the decision and the risk
      assessment are dictionaries and the report file is a string. */
  predicate Summarizable(result: Json) {
    && result.JObj?
    && Part(result, "stock_data").JObj?
    && Part(Part(result, "stock_data"), "basic_info").JObj?
    && Part(result, "decision").JObj?
    && Part(result, "risk_assessment").JObj?
    && Get(result, "report_file", NA).value.JStr?
  }

  /** Whether every row of the summary can be read. */
  predicate AllSummarizable(results: seq<Json>) {
    forall k :: 0 <= k < |results| ==> Summarizable(results[k])
  }

  /** Keeping one more readable result keeps every result readable by the
      summary. */
  lemma SummarizableAppended(results: seq<Json>, result: Json)
    requires AllSummarizable(results) && Summarizable(result)
    ensures AllSummarizable(results + [result])
  {
    var rs := results + [result];
    forall k | 0 <= k < |rs| ensures Summarizable(rs[k]) {
      if k < |results| {
        assert rs[k] == results[k];
      }
    }
  }

  /** The cells of one result's row; a `.get` or `.startswith` on a value
      without it raises `AttributeError`. */
  function SummaryCells(result: Json): (r: Result<Cells>)
    ensures r.Ok? <==> Summarizable(result)
    ensures r.Err? ==> r.fault.AttributeError?
  {
    if !result.JObj? then Err(AttributeError("get"))
    else
      var stock := Part(result, "stock_data");
      if !stock.JObj? then Err(AttributeError("get"))
      else
        var basic := Part(stock, "basic_info");
        var decision := Part(result, "decision");
        var risk := Part(result, "risk_assessment");
        if !basic.JObj? || !decision.JObj? || !risk.JObj? then Err(AttributeError("get"))
        else
          var reportFile := Get(result, "report_file", NA).value;
          if !reportFile.JStr? then Err(AttributeError("startswith"))
          else
            Ok(Cells(Str(Get(stock, "ts_code", NA).value), Str(Get(basic, "name", NA).value),
                     Str(Get(decision, "action", NA).value), Str(Get(decision, "confidence", NA).value),
                     Str(Get(risk, "overall_risk_level", NA).value), LinkPath(reportFile.s)))
  }

  /** The pieces between the bars of a row: every cell framed by one space,
      and nothing before the first bar or after the last. */
  function RowPieces(c: Cells): seq<string> {
    ["", " " + c.code + " ", " " + c.name + " ", " " + c.action + " ", " " + c.confidence + "/10 ",
     " " + c.risk + " ", " [" + c.code + "](" + c.link + ") ", ""]
  }

  /** One table row, without its newline (reports/report_generator.py:350):
      `| code | name | action | confidence/10 | risk | [code](link) |`. */
  function RowLine(c: Cells): string {
    Join(RowPieces(c), "|")
  }

  /** The cells of every row, in the order of the results. */
  function AllCells(results: seq<Json>): (cells: seq<Cells>)
    requires AllSummarizable(results)
    ensures |cells| == |results|
    ensures forall k {:trigger cells[k]} :: 0 <= k < |results| ==> cells[k] == SummaryCells(results[k]).value
    decreases |results|
  {
    if results == [] then []
    else
      var init := results[..|results| - 1];
      assert forall k :: 0 <= k < |init| ==> init[k] == results[k];
      AllCells(init) + [SummaryCells(results[|results| - 1]).value]
  }

  function RowLines(cells: seq<Cells>): (lines: seq<string>)
    ensures |lines| == |cells|
    ensures forall k {:trigger lines[k]} :: 0 <= k < |cells| ==> lines[k] == RowLine(cells[k])
    decreases |cells|
  {
    if cells == [] then []
    else
      var init := cells[..|cells| - 1];
      assert forall k :: 0 <= k < |init| ==> init[k] == cells[k];
      RowLines(init) + [RowLine(cells[|cells| - 1])]
  }

  /** `r.get('decision', {}).get('action')`: `None` when there is no action. */
  function ActionOf(result: Json): Json
    requires Summarizable(result)
  {
    Get(Part(result, "decision"), "action", JNull).value
  }

  /** `sum(1 for r in results if r.get('decision', {}).get('action') == action)`
      (reports/report_generator.py:359-361). */
  function CountAction(results: seq<Json>, action: string): (n: nat)
    requires AllSummarizable(results)
    ensures n <= |results|
    decreases |results|
  {
    if results == [] then 0
    else CountAction(results[..|results| - 1], action)
         + (if ActionOf(results[|results| - 1]) == JStr(action) then 1 else 0)
  }

  const Buy := "买入"
  const Hold := "持有"
  const Sell := "卖出"

  /** The three counts use exact equality on one value, so no result counts
      twice and together they never exceed the number of results. */
  lemma {:induction false} CountsBounded(results: seq<Json>)
    requires AllSummarizable(results)
    ensures CountAction(results, Buy) + CountAction(results, Hold) + CountAction(results, Sell) <= |results|
    decreases |results|
  {
    if results != [] {
      var init := results[..|results| - 1];
      CountsBounded(init);
      assert Buy != Hold && Buy != Sell && Hold != Sell by {
        assert Buy[0] != Hold[0] && Buy[0] != Sell[0] && Hold[0] != Sell[0];
      }
    }
  }

  /** A word that starts with none of the first characters `repr` can
      produce: the text of a value equals such a word only if the value is
      that very string. */
  lemma StrIsWord(v: Json, word: string)
    requires word != [] && word[0] !in "NTF-[{0123456789"
    ensures Str(v) == word <==> v == JStr(word)
  {
    if v.JInt? {
      assert Str(v)[0] in "0123456789-";
    } else if v.JObj? {
      assert Str(v)[0] == '{';
    } else if v.JList? {
      assert Str(v)[0] == '[';
    }
  }

  /** The number of rows whose action cell reads `word`. */
  function CountRows(cells: seq<Cells>, word: string): (n: nat)
    ensures n <= |cells|
    decreases |cells|
  {
    if cells == [] then 0
    else CountRows(cells[..|cells| - 1], word) + (if cells[|cells| - 1].action == word then 1 else 0)
  }

  /** A word no `repr` can start with. */
  predicate Word(word: string) {
    word != [] && word[0] !in "NTF-[{0123456789"
  }

  /** A row's action cell reads such a word exactly when the decision's
      action is that string. */
  lemma ActionCell(result: Json, word: string)
    requires Summarizable(result) && Word(word)
    ensures SummaryCells(result).value.action == word <==> ActionOf(result) == JStr(word)
  {
    var decision := Part(result, "decision");
    StrIsWord(Get(decision, "action", NA).value, word);
    match Lookup(decision.fields, "action")
    case Some(v) =>
    case None =>
      assert "N/A"[0] == 'N';
  }

  /** The buy, hold and sell counts are the numbers of table rows whose
      action cell reads exactly that word. */
  lemma {:induction false} CountIsRowCount(results: seq<Json>, word: string)
    requires AllSummarizable(results)
    requires Word(word)
    ensures CountAction(results, word) == CountRows(AllCells(results), word)
    decreases |results|
  {
    if results != [] {
      var n := |results| - 1;
      var init := results[..n];
      var cells := AllCells(results);
      CountIsRowCount(init, word);
      assert cells[..n] == AllCells(init) by {
        forall k | 0 <= k < n ensures cells[k] == AllCells(init)[k] {
          assert init[k] == results[k];
        }
      }
      ActionCell(results[n], word);
      assert CountRows(cells, word) == CountRows(cells[..n], word) + (if cells[n].action == word then 1 else 0);
    }
  }

  /** The three words of the counts. */
  lemma CountWords()
    ensures Word(Buy) && Word(Hold) && Word(Sell)
  {
  }

  /** The mode symbol and name of the page title, from `ANALYSIS_MODE`
      (reports/report_generator.py:313-315). */
  function ModeEmoji(mode: string): (e: string)
    ensures '\n' !in e && '|' !in e
  {
    if mode == "pre_market" then "🌅" else if mode == "post_market" then "🌆" else "📊"
  }

  /** The label names the mode: pre-market and post-market each have their
      own, and every other mode reads as the standard analysis. */
  function ModeText(mode: string): (s: string)
    ensures '\n' !in s && '|' !in s
    ensures s == "开盘前分析" <==> mode == "pre_market"
    ensures s == "收盘后分析" <==> mode == "post_market"
    ensures s == "标准分析" <==> mode != "pre_market" && mode != "post_market"
  {
    if mode == "pre_market" then "开盘前分析" else if mode == "post_market" then "收盘后分析" else "标准分析"
  }

  const TableHeader := "| 股票代码 " + "| 股票名称 " + "| 操作建议 " + "| 决策信心 " + "| 风险等级 " + "| 报告链接 " + "|"
  const TableRule := "|---------" + "|---------" + "|---------" + "|---------" + "|---------" + "|---------" + "|"

  /** The lines before the first row (reports/report_generator.py:317-329). */
  function PreambleLines(mode: string, now: string, count: nat): (lines: seq<string>)
    ensures |lines| == 12 && lines[10] == TableHeader && lines[11] == TableRule
  {
    ["# " + ModeEmoji(mode) + " 批量股票分析汇总报告 - " + ModeText(mode),
     "",
     "**生成时间**: " + now + "  ",
     "**分析类型**: " + ModeEmoji(mode) + " " + ModeText(mode) + "  ",
     "**分析数量**: " + NatToDecimal(count) + " 只股票",
     "",
     "---",
     "",
     "## 📋 分析结果概览",
     "",
     TableHeader,
     TableRule]
  }

  /** Each line followed by a newline. */
  function Unlines(lines: seq<string>): string
    decreases |lines|
  {
    if lines == [] then "" else lines[0] + "\n" + Unlines(lines[1..])
  }

  lemma {:induction false} UnlinesAppend(lines: seq<string>, line: string)
    ensures Unlines(lines + [line]) == Unlines(lines) + line + "\n"
    decreases |lines|
  {
    if lines != [] {
      assert (lines + [line])[1..] == lines[1..] + [line];
      UnlinesAppend(lines[1..], line);
    }
  }

  /** Splitting newline-terminated lines on newlines gives the lines back,
      followed by the pieces of whatever comes after them. */
  lemma {:induction false} SplitUnlines(lines: seq<string>, rest: string)
    requires forall k :: 0 <= k < |lines| ==> '\n' !in lines[k]
    ensures Split(Unlines(lines) + rest, "\n") == lines + Split(rest, "\n")
    decreases |lines|
  {
    if lines != [] {
      var tail := Unlines(lines[1..]) + rest;
      Associative(lines[0] + "\n", Unlines(lines[1..]), rest);
      assert '\n' !in lines[0];
      SplitFirstLine(lines[0], tail);
      SplitUnlines(lines[1..], rest);
      Associative([lines[0]], lines[1..], Split(rest, "\n"));
      assert [lines[0]] + lines[1..] == lines;
    } else {
      assert Unlines(lines) + rest == rest;
    }
  }

  /** A newline-free first line splits off as the first piece. */
  lemma SplitFirstLine(line: string, tail: string)
    requires '\n' !in line
    ensures Split(line + "\n" + tail, "\n") == [line] + Split(tail, "\n")
  {
    var s := line + "\n" + tail;
    assert s == line + ['\n'] + tail;
    IndexOfCharAfter(line, '\n', tail);
    assert s[..|line|] == line;
    assert s[|line| + 1..] == tail;
  }

  const FooterHead := "\n---\n\n## 🎯 投资建议统计\n\n"

  /** The page's closing line (reports/report_generator.py:370). */
  const Credit := "*本汇总报告由自动化投资分析系统生成*\n"

  /** The counts block and the closing line (reports/report_generator.py:363-370). */
  function CountsText(buy: nat, hold: nat, sell: nat): string {
    "- 🟢 买入: " + NatToDecimal(buy) + " 只\n- 🟡 持有: " + NatToDecimal(hold) + " 只\n- 🔴 卖出: "
    + NatToDecimal(sell) + " 只\n\n---\n\n" + Credit
  }

  /** The whole summary page for `results` whose rows could all be read. */
  function SummaryText(mode: string, now: string, results: seq<Json>): string
    requires AllSummarizable(results)
  {
    Unlines(PreambleLines(mode, now, |results|)) + Unlines(RowLines(AllCells(results))) + FooterHead
    + CountsText(CountAction(results, Buy), CountAction(results, Hold), CountAction(results, Sell))
  }

  /** The summary page opens with its title line and closes with the credit line. */
  lemma PageBoundaries(mode: string, now: string, results: seq<Json>)
    requires AllSummarizable(results)
    ensures StartsWith(SummaryText(mode, now, results), PreambleLines(mode, now, |results|)[0] + "\n")
    ensures EndsWith(SummaryText(mode, now, results), Credit)
  {
    var buy, hold, sell := CountAction(results, Buy), CountAction(results, Hold), CountAction(results, Sell);
    CountsClose(buy, hold, sell);
    BoundaryLines(PreambleLines(mode, now, |results|), Unlines(RowLines(AllCells(results))), FooterHead,
                  CountsText(buy, hold, sell));
  }

  lemma CountsClose(buy: nat, hold: nat, sell: nat)
    ensures EndsWith(CountsText(buy, hold, sell), Credit)
  {
    Closes("- 🟢 买入: " + NatToDecimal(buy) + " 只\n- 🟡 持有: " + NatToDecimal(hold) + " 只\n- 🔴 卖出: "
           + NatToDecimal(sell) + " 只\n\n---\n\n", Credit);
  }

  /** A page made of some lines, any further text and a counts block opens
      with its first line and closes with the credit line. */
  lemma BoundaryLines(pre: seq<string>, rows: string, foot: string, counts: string)
    requires |pre| > 0 && EndsWith(counts, Credit)
    ensures StartsWith(Unlines(pre) + rows + foot + counts, pre[0] + "\n")
    ensures EndsWith(Unlines(pre) + rows + foot + counts, Credit)
  {
    var first := pre[0] + "\n";
    assert Unlines(pre) == first + Unlines(pre[1..]);
    Opens(first, Unlines(pre[1..]));
    Opens(Unlines(pre), rows);
    Opens(Unlines(pre) + rows, foot);
    Opens(Unlines(pre) + rows + foot, counts);
    Closes(Unlines(pre) + rows + foot, counts);
  }

  /** Whatever is appended, a text still starts with its own beginning. */
  lemma Opens(head: string, tail: string)
    ensures StartsWith(head + tail, head)
    ensures forall p {:trigger StartsWith(head, p)} :: StartsWith(head, p) ==> StartsWith(head + tail, p)
  {
    assert (head + tail)[..|head|] == head;
    forall p | StartsWith(head, p)
      ensures StartsWith(head + tail, p)
    {
      assert (head + tail)[..|p|] == head[..|p|];
    }
  }

  lemma Closes(head: string, counts: string)
    requires EndsWith(counts, Credit)
    ensures EndsWith(head + counts, Credit)
  {
    var text := head + counts;
    assert text[|text| - |Credit|..] == counts[|counts| - |Credit|..];
  }

  lemma Associative<T>(a: seq<T>, b: seq<T>, c: seq<T>)
    ensures a + b + c == a + (b + c)
  {
  }

  lemma PrefixGrows<T>(s: seq<T>, i: nat)
    requires i < |s|
    ensures s[..i + 1] == s[..i] + [s[i]]
  {
  }

  /** Everything after the last row. */
  function Footer(results: seq<Json>): (text: string)
    requires AllSummarizable(results)
    ensures |text| > 0 && text[0] == '\n'
  {
    FooterHead + CountsText(CountAction(results, Buy), CountAction(results, Hold), CountAction(results, Sell))
  }

  /** The summary's own file, in the output folder (reports/report_generator.py:308-310). */
  function SummaryPath(outputDir: string, day: string, hms: string): string {
    PathJoin(outputDir, "summary_" + day + "_" + hms + ".md")
  }

  /** The summary file is named `summary_<day>_<time>.md`; under the default
      folder it is `reports/summary_<day>_<time>.md`. */
  lemma SummaryFileName(outputDir: string, day: string, hms: string)
    ensures EndsWith(SummaryPath(outputDir, day, hms), "summary_" + day + "_" + hms + ".md")
    ensures SummaryPath("reports", day, hms) == "reports" + "/" + ("summary_" + day + "_" + hms + ".md")
  {
    JoinEndsWith(outputDir, "summary_" + day + "_" + hms + ".md");
  }

  /** Read line by line, the page is its preamble lines, one line per row,
      then an empty line that opens the footer. */
  lemma SummaryLines(mode: string, now: string, results: seq<Json>)
    requires AllSummarizable(results)
    requires '\n' !in now
    requires forall k :: 0 <= k < |results| ==> '\n' !in RowLine(AllCells(results)[k])
    ensures exists more ::
              Split(SummaryText(mode, now, results), "\n")
              == PreambleLines(mode, now, |results|) + RowLines(AllCells(results)) + [""] + more
  {
    NewlineFreePreamble(mode, now, |results|);
    var pre := Unlines(PreambleLines(mode, now, |results|));
    var rows := Unlines(RowLines(AllCells(results)));
    var counts := CountsText(CountAction(results, Buy), CountAction(results, Hold), CountAction(results, Sell));
    assert SummaryText(mode, now, results) == pre + rows + Footer(results) by {
      Associative(pre + rows, FooterHead, counts);
    }
    SplitPage(PreambleLines(mode, now, |results|), RowLines(AllCells(results)), Footer(results));
  }

  /** A page of newline-free lines followed by a text that starts with a
      newline splits into those lines, then an empty piece, then the rest. */
  lemma SplitPage(pre: seq<string>, rows: seq<string>, foot: string)
    requires forall k :: 0 <= k < |pre| ==> '\n' !in pre[k]
    requires forall k :: 0 <= k < |rows| ==> '\n' !in rows[k]
    requires |foot| > 0 && foot[0] == '\n'
    ensures Split(Unlines(pre) + Unlines(rows) + foot, "\n") == pre + rows + [""] + Split(foot[1..], "\n")
  {
    var lines := pre + rows;
    UnlinesConcat(pre, rows);
    forall k | 0 <= k < |lines|
      ensures '\n' !in lines[k]
    {
      if k < |pre| {
        assert lines[k] == pre[k];
      } else {
        assert lines[k] == rows[k - |pre|];
      }
    }
    SplitUnlines(lines, foot);
    assert "" + "\n" + foot[1..] == foot;
    SplitFirstLine("", foot[1..]);
    Associative(lines, [""], Split(foot[1..], "\n"));
  }

  lemma {:induction false} UnlinesConcat(a: seq<string>, b: seq<string>)
    ensures Unlines(a + b) == Unlines(a) + Unlines(b)
    decreases |a|
  {
    if a != [] {
      assert (a + b)[0] == a[0];
      assert (a + b)[1..] == a[1..] + b;
      UnlinesConcat(a[1..], b);
      assert Unlines(a + b) == a[0] + "\n" + Unlines(a[1..] + b);
    } else {
      assert a + b == b;
    }
  }

  /** No preamble line holds a newline; the lines before the table header
      hold no bar either. */
  lemma NewlineFreePreamble(mode: string, now: string, count: nat)
    requires '\n' !in now
    ensures forall k :: 0 <= k < 12 ==> '\n' !in PreambleLines(mode, now, count)[k]
    ensures '|' !in now ==> forall k :: 0 <= k < 10 ==> '|' !in PreambleLines(mode, now, count)[k]
  {
    var lines := PreambleLines(mode, now, count);
    TitleLines(mode, now, count);
    FixedLines();
    forall k | 0 <= k < 12
      ensures '\n' !in lines[k] && (k < 10 && '|' !in now ==> '|' !in lines[k])
    {
      if k == 6 {
        assert lines[k] == "---";
      } else if k == 8 {
        assert lines[k] == "## 📋 分析结果概览";
      } else if k == 10 {
        assert lines[k] == TableHeader;
      } else if k == 11 {
        assert lines[k] == TableRule;
      }
    }
  }

  lemma FixedLines()
    ensures '\n' !in "---" && '|' !in "---"
    ensures '\n' !in "## 📋 分析结果概览" && '|' !in "## 📋 分析结果概览"
    ensures '\n' !in TableHeader && '\n' !in TableRule
  {
  }

  lemma TitleLines(mode: string, now: string, count: nat)
    requires '\n' !in now
    ensures var lines := PreambleLines(mode, now, count);
            && '\n' !in lines[0] && '|' !in lines[0]
            && '\n' !in lines[2] && ('|' !in now ==> '|' !in lines[2])
            && '\n' !in lines[3] && '|' !in lines[3]
            && '\n' !in lines[4] && '|' !in lines[4]
  {
    var lines := PreambleLines(mode, now, count);
    var e, m := ModeEmoji(mode), ModeText(mode);
    Plain("# "); Plain(" 批量股票分析汇总报告 - ");
    assert lines[0] == "# " + e + " 批量股票分析汇总报告 - " + m;
    Plain("**生成时间**: "); Plain("  ");
    assert lines[2] == "**生成时间**: " + now + "  ";
    Plain("**分析类型**: "); Plain(" ");
    assert lines[3] == "**分析类型**: " + e + " " + m + "  ";
    DecimalLine(count);
    Plain("**分析数量**: "); Plain(" 只股票");
    assert lines[4] == "**分析数量**: " + NatToDecimal(count) + " 只股票";
  }

  /** A fixed piece of text without newlines or bars. */
  lemma Plain(s: string)
    requires forall k :: 0 <= k < |s| ==> s[k] != '\n' && s[k] != '|'
    ensures '\n' !in s && '|' !in s
  {
  }

  lemma DecimalLine(n: nat)
    ensures '\n' !in NatToDecimal(n) && '|' !in NatToDecimal(n)
  {
  }
}
