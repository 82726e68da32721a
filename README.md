# Multi-agent A-share analysis — a Dafny model

This project models the core of a multi-agent stock-analysis program for the
Chinese A-share market. Every role agent is a prompt sent to the DeepSeek chat
model:

- three analysts: technical, fundamental and news;
- a bull researcher and a bear researcher;
- a debate coordinator;
- a trader;
- a risk manager.

The pipeline (`StockAnalysisSystem.analyze_stock`) runs these steps in order:

1. fetch a Tushare data bundle;
2. run the three analysts;
3. let the two researchers open a debate;
4. alternate rebuttals for `MAX_DEBATE_ROUNDS` rounds and end with a moderator summary;
5. ask the trader for a decision and the risk manager for an assessment;
6. stamp the result with the time;
7. write a Markdown report and a JSON dump under `reports/<code>/<date>/`.

`batch_analyze` runs the pipeline over a list of stock codes. It skips the
codes that fail, writes a summary page (`summary_*.md`) and regenerates
`reports/README.md`. The e-mail sender reads the summary table back out of the
summary page and turns it into an HTML e-mail body.

## How the model is built

- **Outside services are scripted oracles.** Each is a class with a fixed
  script of answers and a log of calls:
  - the DeepSeek client (`LlmClient.DeepSeekClient`): the k-th chat call gets `replies(k)`;
  - Tushare (`Market.TushareClient`);
  - the wall clock (`Clocks.Clock`).

  So every contract can say exactly which requests were sent, in which order,
  with which temperature, and what the result is built from.
- **Data is a `Json` value.** Python dicts are ordered association lists, so
  insertion order is kept. Python's run-time faults are values of type
  `Result`:
  - `AttributeError` for `.get` on a non-dict;
  - `TypeError` for slicing a non-list or hashing a list;
  - `ValueError` for `int()`.

  The batch loop catches every fault, as `except Exception` does.
- **Prompts are opaque.** A message is system prose, a role's fixed
  instruction, or `Data(values)`: the values that the f-string context of that
  call interpolates. "What each agent sees" is therefore stated as equalities on
  those values.
- **Temperatures are in tenths:** 7 by default, 8 for rebuttals, 6 for the
  trader and 5 for the risk manager.
- **Imperative code stays imperative.** The agents, the debate coordinator,
  the pipeline, the report generator and the e-mail sender are classes or
  methods with `modifies` frames. The debate loop, the batch loop, the summary
  table loop, the index scan and the e-mail table parser are loops with
  invariants. Each is proved against a specification function; for example,
  `DebateRounds` yields exactly `Transcript(Schedule(rounds), …)`.

### Behaviours of the code worth knowing

- **Role agents can raise.** Each analyst, researcher, trader and risk manager
  prints `result.get(...)` after parsing the reply, so a reply that decodes to a JSON
  list or number raises `AttributeError` (`LlmClient.Announced`). The debate
  also raises when `basic_info` is `None` (`Researchers.DebateHeader`).
- **The researchers do not see the analysts' results.**
  `analyze_stock` passes `{'analysts': …}`, while the researchers look up
  `technical`, `fundamental` and `news` at the top level. Every researcher
  prompt therefore carries three empty dicts (`Researchers.NestedResultsAreUnseen`).
- **The analysts run one after another** in a fixed order, not in parallel.
  The news analyst skips its call when there is no news.
- **`final_result` keys.** It carries `stock_data`, `analysis`, `decision`,
  `risk_assessment`, `analysis_time` and `report_file`. `duration_seconds` is
  left out (see below).

## Model

| member | source | states |
|---|---|---|
| LlmClient.ChatText | agents/llm_client.py:20-32 | a completion is returned verbatim; a transport failure becomes "错误: " followed by the error text, never an exception |
| LlmClient.DeepSeekClient.Chat | agents/llm_client.py:20-32 | exactly one request with the given messages, temperature (default 0.7) and max_tokens (default 4000) is appended to the call log; the answer is the scripted reply for that call |
| LlmClient.DeepSeekClient.AnalyzeWithSystemPrompt | agents/llm_client.py:34-41 | sends exactly [system, user] with the given temperature |
| LlmClient.DeepSeekClient.StructuredAnalysis | agents/llm_client.py:43-51 | sends the system prompt built from role, task and output format, plus the data as the user message |
| LlmClient.DeepSeekClient.MultiRoundDialogue | agents/llm_client.py:69-73 | the request is the system message followed by the whole conversation, with max_tokens 4000 and earlier calls unchanged |
| LlmClient.JsonFencePayload | agents/llm_client.py:57-58 | with a ```json fence, the payload is the stripped text between it and the next ``` |
| LlmClient.PlainFencePayload | agents/llm_client.py:59-60 | with a plain fence only, the payload is the stripped text between the first two ``` (the rest, if unclosed) |
| LlmClient.PayloadShape | agents/llm_client.py:56-62 | `JsonPayload`: without any fence, the payload is the stripped reply; with a fence, the payload never contains a fence; in every case it is stripped |
| LlmClient.PayloadStripped | agents/llm_client.py:56-62 | whatever fences the reply has, the text handed to `json.loads` has no leading or trailing whitespace |
| LlmClient.ParseFallback | agents/llm_client.py:53-67 | `ParseJsonResponse` never raises: the result is the decoded payload, or, exactly when the payload does not decode, {"raw_response": reply} with the reply unstripped; any non-dict result came from a successful decode |
| LlmClient.Announced | agents/analysts.py:77 | the progress print after an agent call succeeds iff the parsed reply is a dict, and then passes it on unchanged |
| Market.BundleShape | data/tushare_client.py:128-153 | the data bundle is a dict with exactly the eight keys in source order, and ts_code is the requested code |
| Market.BundleLookups | data/tushare_client.py:132-141 | `Bundle`: basic_info, daily_data, financial_data and financial_indicators each look up to the answer of their own getter |
| Market.BundleTimelyLookups | data/tushare_client.py:132-141 | `Bundle`: fetch_time, realtime_quote and news each look up to the fetch time, the quote and the news of that fetch |
| Market.TushareClient.GetComprehensiveData | data/tushare_client.py:128-153 | one fetch is logged and the bundle is built from that fetch's scripted parts |
| Market.TushareClient.SaveDataToCache | data/tushare_client.py:155-170 | the (code, data) pair is recorded and nothing else changes |
| Clocks.Clock.Now | main.py:84 | each reading consumes one tick and returns the next scripted moment |
| Analysts.TechnicalContext | agents/analysts.py:20-52 | fails iff the input is not a dict or a present field has the wrong shape; otherwise it carries the last 10 daily bars, and the intraday block only when intraday data is truthy |
| Analysts.FundamentalContext | agents/analysts.py:92-107 | succeeds iff stock_data is a dict whose basic_info is a dict; it carries six values |
| Analysts.NewsContext | agents/analysts.py:149-168 | empty or missing news short-circuits to the fixed neutral answer with no model call; otherwise it asks with the first 10 news items |
| Analysts.MissingInputsAreEmpty | agents/analysts.py:21-26 | None inputs are replaced by {} or [] and both contexts still build |
| Analysts.TechnicalAnalyst.Analyze | agents/analysts.py:16-78 | a context fault raises before any call; otherwise it makes exactly one technical-analyst call at 0.7 and returns the parsed reply |
| Analysts.FundamentalAnalyst.Analyze | agents/analysts.py:88-135 | same, with one fundamental-analyst call |
| Analysts.NewsAnalyst.Analyze | agents/analysts.py:145-194 | no call and the neutral answer when there is no news; otherwise exactly one news-analyst call |
| Researchers.ResearchContext | agents/researchers.py:20-35 | succeeds iff stock_data is a dict, its basic_info (defaulting to {}) is a dict and analysis_results is a dict; then it carries six values, the last three being the top-level technical, fundamental and news entries of analysis_results, each {} when missing |
| Researchers.NestedResultsAreUnseen | main.py:112-117 | with the results nested under 'analysts', all three analyst views the researchers receive are {} |
| Researchers.BullResearcher.Research | agents/researchers.py:16-62 | a context fault raises; otherwise one bull-researcher call and the parsed reply |
| Researchers.BearResearcher.Research | agents/researchers.py:72-117 | a context fault raises; otherwise one bear-researcher call and the parsed reply |
| Researchers.ScheduleShape | agents/researchers.py:137-153 | the debate takes 2·rounds−1 turns (none when rounds < 1), and turn i is given in closed form |
| Researchers.ScheduleOrder | agents/researchers.py:137-153 | the bear speaks first; sides alternate; round numbers never decrease and stay within 1..rounds |
| Researchers.Transcript | agents/researchers.py:137-153 | the history has one entry per turn, carrying that turn's round, side and the reply to that call |
| Researchers.RebuttalSeesPrefix | agents/researchers.py:142-153 | the i-th rebuttal request carries exactly the first i history entries |
| Researchers.BearAnswersBull | agents/researchers.py:142-153 | in every round after the first, the bear's request ends with the bull's entry of that round |
| Researchers.DebateHeader | agents/researchers.py:172-173 | the debate fails iff basic_info is not a dict; a None basic_info raises |
| Researchers.DebateCalls | agents/researchers.py:137-156 | the debate makes one call per turn plus one summary call |
| Researchers.DebateCallRoles | agents/researchers.py:137-156 | the calls go rebuttal by rebuttal, following the schedule's sides, and end with the moderator |
| Researchers.DebateCoordinator.CoordinateDebate | agents/researchers.py:127-165 | a header fault raises before any call; otherwise the calls and the result are those of the scheduled debate |
| Researchers.DebateCoordinator.Debate | agents/researchers.py:135-165 | the call log grows by exactly the debate's calls; the result holds the opening views, the history and the parsed summary |
| Researchers.DebateCoordinator.DebateRounds | agents/researchers.py:135-153 | the loop yields exactly the transcript of the schedule and logs one rebuttal request per turn |
| Researchers.DebateCoordinator.TakeTurn | agents/researchers.py:141-153 | one turn extends the history and the call log by that turn's entry and request |
| Researchers.DebateCoordinator.GetRebuttal | agents/researchers.py:167-196 | one call at temperature 0.8 carrying the side, both views and the history so far; the rebuttal is the raw reply |
| Researchers.DebateCoordinator.SummarizeDebate | agents/researchers.py:198-238 | one moderator call with both views and the whole history; the summary is the parsed reply |
| DecisionMaker.TraderContext | agents/decision_maker.py:20-37 | succeeds iff stock_data is a dict, its basic_info and realtime_quote (each defaulting to {}) are dicts and all_analysis is a dict; then it carries six values, the last two being the analysts and debate entries of all_analysis, each {} when missing |
| DecisionMaker.RiskContext | agents/decision_maker.py:90-104 | succeeds iff stock_data is a dict whose basic_info (defaulting to {}) is a dict; the trading decision and all_analysis are passed through unchanged |
| DecisionMaker.TraderSeesAnalysis | agents/decision_maker.py:33-36 | the trader receives the analysts block and the debate block of all_analysis, or {} when they are absent |
| DecisionMaker.Trader.MakeDecision | agents/decision_maker.py:16-75 | a context fault raises; otherwise one trader call at 0.6 and the parsed reply |
| DecisionMaker.RiskManager.AssessRisk | agents/decision_maker.py:85-145 | a context fault raises; otherwise one risk-manager call at 0.5 and the parsed reply |
| StockAnalysis.DebateOrder | config/config.py:41 | with MAX_DEBATE_ROUNDS = 2 the debate is bear, bull, bear, then the moderator |
| StockAnalysis.FiledResult | main.py:146-156 | the filed result has exactly the six final keys in order, with report_file last |
| StockAnalysis.AnalystResultsShape | main.py:102-117 | `AnalystResults` has exactly the keys technical, fundamental, news, each holding its analyst's answer; `Nested` wraps it as the only key, analysts |
| StockAnalysis.AllAnalysisShape | main.py:127-130 | `AllAnalysis` has exactly the keys analysts and debate, holding the analysts' results and the debate result |
| StockAnalysis.FinalResultShape | main.py:143-153 | `FinalResult` has the first five final keys in order, each holding its part; analysis_time holds the ISO time string |
| StockAnalysis.FiledKeepsFields | main.py:156 | `Filed` adds report_file as the last key, which looks up to the path when it is new, and every key already present keeps its value |
| StockAnalysis.DeliberationRoles | main.py:98-140 | whatever the replies, the requests of stages 2 to 5 speak as the analysts (news only with news), bull, bear, the three rebuttals, the moderator, the trader and the risk manager, in that order |
| StockAnalysis.StagedRoles | main.py:98-140 | for any analyst results, the analysts' requests followed by those of stages 3 to 5 speak in pipeline order |
| StockAnalysis.WeighingRoles | main.py:112-140 | the requests of stages 3 to 5 speak as bull, bear, bear, bull, bear, moderator, trader, risk manager |
| StockAnalysis.DebateStageRoles | main.py:112-121 | the debate stage's requests speak as bull, bear, then the three rebuttals and the moderator |
| StockAnalysis.DeliberationCallsInStages | main.py:98-140 | the requests of stages 2 to 5 are exactly the analysts' requests followed by those of stages 3 to 5 |
| StockAnalysis.WeighingCallsInStages | main.py:112-140 | the requests of stages 3 to 5 are exactly the debate stage's requests followed by the trader's and risk manager's requests on the all_analysis that debate completes |
| StockAnalysis.ResearchersSeeNoAnalysis | main.py:112-117 | both researchers are handed three empty analyst views, because the analysts' results are nested one level down under 'analysts' |
| StockAnalysis.DecisionSeesAnalysis | main.py:127-140 | the trader's request carries the analysts' results and the debate as produced; the risk manager's carries the trader's decision and all_analysis |
| StockAnalysis.DebateLength | config/config.py:41 | with MAX_DEBATE_ROUNDS = 2 the two researchers and the debate make six calls |
| StockAnalysis.FiledIsReported | main.py:146-156 | a filed result records the Markdown path actually written, and both the report and the JSON dump are written |
| StockAnalysis.StockAnalysisSystem.constructor | main.py:32-76 | fresh clients with empty logs; the model is deepseek-chat and reports go to "reports" |
| StockAnalysis.StockAnalysisSystem.RunAnalysts | main.py:98-106 | succeeds iff every analyst's context builds and every reply it needs decodes to a dict; then the log grows by exactly the technical, fundamental and (only with news) news requests, each carrying its context's values, and the result is the three-key dict of the decoded replies, with the neutral answer when there is no news |
| StockAnalysis.StockAnalysisSystem.RunDebate | main.py:112-121 | succeeds iff the researchers' context and the debate header build and both researchers' replies decode to dicts; then the log grows by the bull's and the bear's requests on that context followed by the debate's requests, and the result is the debate over the two decoded views |
| StockAnalysis.StockAnalysisSystem.Decide | main.py:132-140 | succeeds iff the trader's context builds, its reply decodes to a dict, and the risk manager's context over that decision builds and its reply decodes to a dict; then the log grows by exactly those two requests and the results are the two decoded replies |
| StockAnalysis.StockAnalysisSystem.Weigh | main.py:112-140 | succeeds iff the debate stage succeeds and then the decision on the all_analysis it completes; the log grows by the debate stage's requests then the decision's, and the result is that all_analysis with the decision and the risk assessment |
| StockAnalysis.StockAnalysisSystem.Stamp | main.py:143-153 | the final result is built with the ISO time of the clock reading |
| StockAnalysis.StockAnalysisSystem.FileReport | main.py:155-156 | succeeds iff the Markdown template does not fault; nothing is written on failure |
| StockAnalysis.StockAnalysisSystem.Deliberate | main.py:98-140 | succeeds iff every stage from 2 to 5 succeeds in turn; the log grows by exactly every stage's requests in order, and the result is all_analysis (the analysts' results and the debate), the decision and the risk assessment decoded from the replies |
| StockAnalysis.StockAnalysisSystem.AnalyzeStock | main.py:78-165 | fetch exactly once and cache iff requested; succeeds iff stages 2 to 5 succeed on the fetched bundle and its report does not fault; on success the log holds every stage's requests, in pipeline role order, and the filed result's analysis, decision and risk_assessment are the stage results computed from that bundle and the replies |
| StockAnalysis.StockAnalysisSystem.Assess | main.py:98-165 | succeeds iff stages 2 to 5 succeed and the report does not fault; on failure no file is written; on success the log holds every stage's requests in pipeline role order and the result is the filed final result of the stage results, stamped by the clock |
| StockAnalysis.StockAnalysisSystem.Conclude | main.py:143-165 | succeeds iff the report of the stamped result does not fault; on success the filed result's first five fields are the final result of the given analysis, decision and risk assessment, stamped and filed with consecutive clock readings |
| StockAnalysis.StockAnalysisSystem.TryAnalyze | main.py:180-187 | one fetch per code; the pass keeps a result exactly when the analysis of that fetch succeeds (every stage succeeds and the report does not fault); a kept result is the reported final result of that fetch, with two files written; a dropped code writes nothing |
| StockAnalysis.StockAnalysisSystem.TryAnalyzeAt | main.py:180-182 | pass i of a batch fetches code i once and records, between the states before and after it, the outcome that the analysis of its fetch gives; a kept result can be summarised, carries its own fetch and was filed with two files; a dropped code writes nothing |
| StockAnalysis.StockAnalysisSystem.AnalyzeNext | main.py:180-187 | one loop step appends its result exactly when the pass kept one, records the code's position with it, and states the pass's outcome between the states before and after it |
| StockAnalysis.StockAnalysisSystem.AnalyzeEach | main.py:173-187 | every code is fetched once in order; pass k runs from marks[k] to marks[k+1] with outcome k; results are exactly the kept outcomes, in input order, each built from its own fetch, with two files each |
| StockAnalysis.StockAnalysisSystem.BatchAnalyze | main.py:167-200 | every code is fetched once, in order; the passes and kept results are those of the loop; results are non-empty iff some pass kept a result; then the summary page and the index are written last, otherwise nothing is written at all |
| StockAnalysis.StockAnalysisSystem.Summarize | main.py:189-194 | with results, writes exactly the summary page and the index after what was written; with none, writes nothing |
| StockAnalysis.PicksEach | main.py:180-182 | position k is picked iff pass k kept an outcome, and result j is the outcome of the position picked for it |
| StockAnalysis.BatchKeeps | main.py:180-182 | in a batch, code k is kept iff the analysis of its fetch, begun at the state where its pass began, succeeds |
| StockAnalysis.BatchResult | main.py:180-182 | in a batch, result j is the reported final result of its code's fetch, made by that code's pass |
| StockAnalysis.BatchDrops | main.py:183-187 | in a batch, a dropped code's pass writes nothing |
| StockAnalysis.SomeKept | main.py:189 | some result is kept iff some pass kept an outcome |
| StockAnalysis.BatchSummarized | main.py:180-190 | a batch writes its summary iff the analysis of some code succeeds |
| StockAnalysis.FromFetchesEach | main.py:173-187 | each kept result's stock_data is the bundle fetched for its own code |
| StockAnalysis.InOrderIncreasing | main.py:173-187 | kept results come from strictly increasing input positions |
| Reports.ActionEmoji | reports/report_generator.py:254-262 | 买入/持有/卖出 map to green/yellow/red, any other hashable value to white; a list or dict raises TypeError |
| Reports.RiskEmoji | reports/report_generator.py:264-271 | 低/中/高 map to green/yellow/red, anything else hashable to white |
| Reports.ConfidenceBar | reports/report_generator.py:273-281 | for 0..10 the bar is score filled cells then 10−score empty cells; above 10 it is score filled cells and below 0 it is 10−score empty cells, as long as both repetition counts fit CPython's 64-bit index; a non-integer, or a count outside that index range (OverflowError, caught), gives ten empty cells |
| Reports.RiskBar | reports/report_generator.py:283-295 | for 0..10 the bar has score coloured cells (colour by threshold) and 10−score white; above 10 it is score red cells and below 0 it is 10−score white cells while both counts fit CPython's 64-bit index; a non-integer, or a count outside that range, gives ten white cells |
| Reports.FormatList | reports/report_generator.py:297-301 | a falsy value gives "- 无"; a truthy list gives one "- item" line per member; a truthy number raises |
| Reports.FormatListLines | reports/report_generator.py:297-301 | splitting the formatted list on newlines gives back exactly one "- item" line per item, for every list whose string items hold no newline (other items are shown with `repr`, which escapes newlines) |
| JsonValues.EscapeChar | reports/report_generator.py:301 | `repr` of one character of a string: the escape holds no control character and puts a backslash before every enclosing quote; the character stands for itself exactly when it is not a backslash, the enclosing quote, a control character or DEL |
| JsonValues.EscapedShape | reports/report_generator.py:301 | the inside of a string's `repr` holds no control character, and every quote character in it is escaped |
| JsonValues.PlainStrRepr | reports/report_generator.py:301 | a string without quotes, backslashes or control characters is shown as itself between single quotes |
| JsonValues.ReprHasNoNewline | reports/report_generator.py:301 | the `repr` of any value, so the `str()` of a list, dict, number, bool or None, contains no newline |
| Reports.CleanExchangeCode | reports/report_generator.py:26 | `CleanStockCode`: removing the .SH/.SZ/.HK suffix yields the bare code |
| Reports.PathJoin | reports/report_generator.py:29-35 | os.path.join semantics: an absolute second part replaces the first; otherwise parts are joined by one slash |
| Reports.ReportFilesPair | reports/report_generator.py:29-35 | `MarkdownPath` and `JsonPath`: the Markdown and JSON files share a stem and differ only in .md/.json |
| Reports.LinkDropsPrefixOnce | reports/report_generator.py:344-348 | `LinkPath`: the summary link drops a leading "reports/" once and leaves other paths alone |
| Reports.DefaultReportLink | reports/report_generator.py:26-35 | under the default directory the summary link is code/date/analysis_time.md |
| ReportGeneration.EarlyFault | reports/report_generator.py:56-63 | the template's first lookups succeed iff data, stock_data and analysis are dicts |
| ReportGeneration.TemplateFault | reports/report_generator.py:64-250 | a template without fault has a dict basic_info |
| ReportGeneration.MarkdownFault | reports/report_generator.py:53-252 | a template without fault has dict data and dict stock_data |
| ReportGeneration.MissingQuoteFailsReport | reports/report_generator.py:83 | a None realtime_quote makes the report raise AttributeError |
| ReportGeneration.MissingDebateSummaryFailsReport | reports/report_generator.py:220 | a None debate_summary makes the report raise |
| ReportGeneration.ReportGenerator.GenerateReport | reports/report_generator.py:17-51 | succeeds iff the template does not fault; then it writes the Markdown report and the JSON dump at the dated paths and returns the Markdown path; on failure nothing is written |
| ReportGeneration.ReportGenerator.WriteReport | reports/report_generator.py:37-51 | writes the two files in order or faults with the template's fault and writes nothing |
| ReportGeneration.ReportGenerator.GenerateSummaryReport | reports/report_generator.py:303-380 | succeeds iff every result is summarizable; writes the summary page, whose text is exactly the preamble, the rows and the counts, then the index |
| ReportGeneration.ReportGenerator.GenerateIndexFile | reports/report_generator.py:382-468 | writes README.md holding the sections of the listing |
| ReportGeneration.SummaryRows | reports/report_generator.py:317-370 | the loop builds exactly the summary text or raises AttributeError |
| ReportGeneration.TableRows | reports/report_generator.py:331-350 | the loop emits exactly one row line per result, in order |
| ReportSummary.SummaryCells | reports/report_generator.py:331-348 | a row can be built iff the result's nested fields are dicts; otherwise AttributeError |
| ReportSummary.AllCells | reports/report_generator.py:331-350 | one cell tuple per result, in order |
| ReportSummary.RowLines | reports/report_generator.py:350 | one table line per cell tuple |
| ReportSummary.CountAction | reports/report_generator.py:359-361 | the count of an action never exceeds the number of results |
| ReportSummary.CountsBounded | reports/report_generator.py:359-361 | buy + hold + sell counts together never exceed the number of results |
| ReportSummary.ActionCell | reports/report_generator.py:339 | a row's action cell equals a word iff the decision's action is that string |
| ReportSummary.CountIsRowCount | reports/report_generator.py:359-361 | the page's exact-match count equals the number of rows showing that action |
| ReportSummary.ModeText | reports/report_generator.py:313-315 | the mode label is a single line without a pipe; it is the pre-market label iff the mode is pre_market, the post-market label iff post_market, and the standard label for every other mode |
| ReportSummary.PreambleLines | reports/report_generator.py:317-329 | the preamble has 12 lines and ends with the table header and rule |
| ReportSummary.Footer | reports/report_generator.py:352-370 | the footer starts on a fresh line |
| ReportSummary.SummaryLines | reports/report_generator.py:317-370 | the page splits into the preamble lines, one line per row, then a blank line |
| ReportSummary.PageBoundaries | reports/report_generator.py:317-370 | `SummaryText`: the page starts with its title line and ends with the closing credit line |
| ReportSummary.SummaryFileName | reports/report_generator.py:308-310 | `SummaryPath`: the summary file is named summary_<date>_<time>.md; under the default folder it is reports/summary_<date>_<time>.md |
| ReportIndex.SortDesc | reports/report_generator.py:428 | a permutation of the date names |
| ReportIndex.SortDescending | reports/report_generator.py:428 | the sorted dates are in descending order |
| ReportIndex.GreatestIsMaximum | reports/report_generator.py:436 | the chosen report is the greatest name among the .md files |
| ReportIndex.FolderNames | reports/report_generator.py:421-425 | never more names than entries, and the name of every sub-folder of the listing is among them |
| ReportIndex.FolderNamesExact | reports/report_generator.py:421-425 | a name is a date folder iff some entry of the listing is a folder with that name |
| ReportIndex.MarkdownNames | reports/report_generator.py:432 | every kept name ends in .md, and every entry whose name ends in .md is kept |
| ReportIndex.MarkdownNamesExact | reports/report_generator.py:432 | a name is taken as a report iff it ends in .md and some entry of the folder has that name |
| ReportIndex.NewestDates | reports/report_generator.py:428-430 | min(5, n) of the n date folders are chosen, and each chosen date is one of the stock's own date folders |
| ReportIndex.DateLinks | reports/report_generator.py:430-438 | at most one link per date |
| ReportIndex.DatesWithReportsLinked | reports/report_generator.py:430-438 | a chosen date gets a link iff its folder holds a .md entry: every date with a report is linked, and every link's date has one |
| ReportIndex.DateLinkIsLatest | reports/report_generator.py:432-437 | a date's link goes to an entry of its folder ending in .md that no other .md entry there exceeds |
| ReportIndex.CollectSections | reports/report_generator.py:409-440 | the scan loop yields exactly the sections of the listing |
| ReportIndex.DateFolders | reports/report_generator.py:421-425 | the inner loop keeps exactly the date folders |
| ReportIndex.LinksFor | reports/report_generator.py:430-438 | the link loop yields exactly the links of the top dates |
| ReportIndex.LinksOfDates | reports/report_generator.py:430-438 | links come only from the given dates and, for descending dates, newest first |
| ReportIndex.LinksAreLatest | reports/report_generator.py:432-438 | each link points at an entry of its date folder ending in .md, and no entry of that folder ending in .md has a greater name |
| ReportIndex.NewestFirst | reports/report_generator.py:428-430 | the shown dates are newest first |
| ReportIndex.OlderDatesLeftOut | reports/report_generator.py:428-430 | a date that is not shown is no newer than any shown date |
| ReportIndex.SectionsOfShownFolders | reports/report_generator.py:411-418 | every section comes from a directory whose name does not start with "." |
| ReportIndex.ShownFoldersHaveSections | reports/report_generator.py:411-418 | every such directory gets a section |
| EmailSending.ExtractTable | utils/email_sender.py:107-128 | the parsing loop yields exactly the entries of the table scan |
| EmailSending.ScanSkips | utils/email_sender.py:113-116 | lines without a pipe before the table header are skipped |
| EmailSending.ScanRows | utils/email_sender.py:117-128 | inside the table each row becomes one entry, and the first non-table line ends the scan |
| EmailSending.RowReadBack | utils/email_sender.py:117-126 | a row line written by the summary page parses back to its cells |
| EmailSending.RowSplit | reports/report_generator.py:350 | `RowLine`: with cells free of bars and newlines, the row starts with a bar, holds no newline, and splits on bars back into an empty piece, the six padded cells and an empty piece |
| EmailSending.RowEntryShape | utils/email_sender.py:117-126 | `InnerCells` and `RowEntry`: a line gives an entry exactly when it has at least five cells; every cell is stripped, and the entry takes the first five |
| EmailSending.ScanBounded | utils/email_sender.py:113-128 | `Scan`: reading yields at most one entry per line |
| EmailSending.SummaryReadBack | utils/email_sender.py:107-128 | parsing a summary page gives back exactly its rows' entries, in order |
| EmailSending.SummaryCountsInEmail | utils/email_sender.py:131-133 | the e-mail's containment count is at least the page's exact count |
| EmailSending.CountContaining | utils/email_sender.py:131-133 | the containment count is bounded by the number of rows |
| EmailSending.CountsOverlap | utils/email_sender.py:131-133 | an action such as 买入持有 is counted both as buy and as hold |
| EmailSending.ActionClasses | utils/email_sender.py:201 | `ActionClass`: buy/hold/sell get their own classes; 观望 and N/A fall into the sell class |
| EmailSending.CreateEmailBody | utils/email_sender.py:104-230 | the body lists the parsed rows with their classes and the three containment counts |
| EmailSending.Lower | utils/email_sender.py:21 | lower-casing keeps the length and maps each character |
| EmailSending.EnabledSpellings | utils/email_sender.py:21 | e-mail is enabled iff the value is "true" in any letter case |
| EmailSending.Recipients | utils/email_sender.py:26-30 | each recipient is non-empty, stripped and free of commas |
| EmailSending.RecipientsRoundTrip | utils/email_sender.py:26-30 | joining clean addresses with commas and parsing gives them back |
| EmailSending.EmailSender.constructor | utils/email_sender.py:19-30 | each setting is read from the environment with its default |
| EmailSending.NewEmailSender | utils/email_sender.py:19-40 | a non-integer SMTP_PORT raises ValueError; otherwise the sender holds the parsed port |
| EmailSending.DefaultPort | utils/email_sender.py:23 | without SMTP_PORT the port is 587 |

## Left out

- The Tushare endpoints themselves are not modelled: the query parameters, the pandas frames and the news filtering. Each fetch is a scripted bundle.
- `save_data_to_cache` file I/O: the cache write is only recorded, and its date-stamped file name is not modelled.
- The OpenAI/DeepSeek transport and the API key are left out. A call is a scripted `Reply`.
- `json.loads` is an abstract `decode` function. `json.dumps` and the prompt text are opaque: a prompt carries the values it interpolates, not their text.
- File-system writes are recorded as (path, document) pairs. Directory creation, encodings and I/O errors are not modelled.
- `os.listdir` is given as a tree of nodes, and the index page's `try/except` around the scan is not modelled.
- The text of the Markdown report template and of the HTML e-mail template is left out. Only the report template's fault skeleton is kept: which `.get` receivers must be dicts, the emoji hashing and the `_format_list` iteration. It alone decides whether a report fails.
- `duration_seconds` and all other floats are left out. Temperatures are tenths, and scores are integers.
- `send_daily_report` is left out: SMTP, attachments and the glob for today's summary. That glob looks for `summary_<%Y%m%d>_*.md` (utils/email_sender.py:52-53), but the summary page is named `summary_<%Y-%m-%d>_<%H%M%S>.md` (reports/report_generator.py:308-310). The dashes in the date mean the glob never finds the page.
- `_attach_file` is left out: it only attaches a file.
- The scheduler, the command-line entry point `main` (main.py:222-322), `quick_view` (main.py:202-219, print only) and the reading of environment variables in config/config.py are left out. The analysis mode is a parameter.
- Printing and traceback output are left out. Only the one `.get` in the agents' progress print that can raise is modelled, by `LlmClient.Announced`.
- Concurrency is out of scope, because the source runs everything sequentially.
- StockAnalysis.StockAnalysisSystem.TryAnalyze: when the analysis raises, the contract says only that nothing is written. The model calls and clock readings used before the failure are not stated.
- StockAnalysis.StockAnalysisSystem.AnalyzeEach: because a failed pass's calls and clock readings are not stated, the states between passes (`marks`) are recorded by the loop rather than computed from the codes. `BatchKeeps` and `BatchSummarized` speak of each analysis as begun at the mark where its pass began.
- EmailSending.Lower: ASCII-only lower-casing. No non-ASCII character lower-cases into "true", so `EnabledSpellings` still describes Python's `str.lower`.
- EmailSending.NewEmailSender: `int()` is modelled as an optional sign with ASCII digits and surrounding blanks. Underscore separators and non-ASCII digits are not accepted.
- LlmClient.JsonFencePayload: proved only when no longer backtick run splits the ```json fence. With such a run, Python's `split` picks a different piece and the lemma makes no claim.
- JsonValues.Repr: non-ASCII characters that Python does not count as printable (U+0080 to U+00A0, U+00AD, U+2028 and others) are kept as they are, where Python writes `\x`, `\u` or `\U` escapes; deciding printability needs the Unicode database.
- Reports.RiskBar: a score that fits the index range but is too large to allocate makes Python raise `MemoryError`, which the bare `except` turns into ten white cells. That threshold depends on the machine's memory, so the model builds the long bar instead. Its score goes through `ToInt`, with the `int()` limits given for `ConfidenceBar`.
- Reports.ConfidenceBar: like `RiskBar`, it builds the long bar where Python would run out of memory and return ten empty cells. The score goes through `ToInt`, which shares `NewEmailSender`'s `int()` limits: `"1_0"` and full-width digits parse in Python (giving a bar of that length) but give ten empty cells in the model.
