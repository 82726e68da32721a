/** The report generator (reports/report_generator.py): the small formatting
    helpers of the per-stock report, the path scheme of the report files, the
    batch summary with its table and action counts, and the selection rule of
    the directory index. The fixed prose of the per-stock report is not
    reproduced; a written report is recorded as the document it renders, and
    only the faults its template can raise are modelled. */
module Reports {
  import opened Text
  import opened JsonValues
  import opened Clocks

  const White := "⚪"
  const Green := "🟢"
  const Yellow := "🟡"
  const Red := "🔴"

  /** Whether `v` can be a dictionary key; lists and dictionaries cannot. */
  predicate Hashable(v: Json) {
    !(v.JList? || v.JObj?)
  }

  /** `_get_action_emoji`: `emoji_map.get(action, '⚪')`. */
  function ActionEmoji(action: Json): (r: Result<string>)
    ensures r.Ok? <==> Hashable(action)
    ensures action == JStr("买入") ==> r == Ok(Green)
    ensures action == JStr("持有") ==> r == Ok(Yellow)
    ensures action == JStr("卖出") ==> r == Ok(Red)
    ensures Hashable(action) && !(action.JStr? && action.s in {"买入", "持有", "卖出"}) ==> r == Ok(White)
  {
    if !Hashable(action) then Err(TypeError("unhashable type"))
    else if action == JStr("买入") then Ok(Green)
    else if action == JStr("持有") then Ok(Yellow)
    else if action == JStr("卖出") then Ok(Red)
    else if action == JStr("观望") then Ok(White)
    else Ok(White)
  }

  /** `_get_risk_emoji`: `emoji_map.get(risk_level, '⚪')`. */
  function RiskEmoji(level: Json): (r: Result<string>)
    ensures r.Ok? <==> Hashable(level)
    ensures level == JStr("低") ==> r == Ok(Green)
    ensures level == JStr("中") ==> r == Ok(Yellow)
    ensures level == JStr("高") ==> r == Ok(Red)
    ensures Hashable(level) && !(level.JStr? && level.s in {"低", "中", "高"}) ==> r == Ok(White)
  {
    if !Hashable(level) then Err(TypeError("unhashable type"))
    else if level == JStr("低") then Ok(Green)
    else if level == JStr("中") then Ok(Yellow)
    else if level == JStr("高") then Ok(Red)
    else Ok(White)
  }

  /** `s` is `n` copies of the one-character string `unit`. */
  predicate Copies(s: string, unit: string, n: nat)
    requires |unit| == 1
  {
    |s| == n && forall k :: 0 <= k < |s| ==> s[k] == unit[0]
  }

  /** The bound of CPython's index-sized integers: a repetition count
      outside `-IndexLimit .. IndexLimit - 1` raises `OverflowError`. */
  const IndexLimit: int := 0x8000_0000_0000_0000

  /** `n` can be a string repetition count. */
  predicate FitsIndex(n: int) {
    -IndexLimit <= n < IndexLimit
  }

  /** `_get_confidence_bar`: `score` full blocks then `10 - score` light
      shades; ten light shades when `int(score)` fails or either count does
      not fit an index. Never raises. */
  function ConfidenceBar(score: Json): (bar: string)
    ensures ToInt(score).None? ==> Copies(bar, "░", 10)
    ensures ToInt(score).Some? && 0 <= ToInt(score).value <= 10 ==>
              var s := ToInt(score).value;
              |bar| == 10 && Copies(bar[..s], "█", s) && Copies(bar[s..], "░", 10 - s)
    ensures ToInt(score).Some? && 10 < ToInt(score).value < IndexLimit ==> Copies(bar, "█", ToInt(score).value)
    ensures ToInt(score).Some? && 10 - IndexLimit < ToInt(score).value < 0 ==>
              Copies(bar, "░", 10 - ToInt(score).value)
    ensures ToInt(score).Some? && !(10 - IndexLimit < ToInt(score).value < IndexLimit) ==> Copies(bar, "░", 10)
  {
    match ToInt(score)
    case None => Repeat('░', 10)
    case Some(s) =>
      if FitsIndex(s) && FitsIndex(10 - s) then Repeat('█', s) + Repeat('░', 10 - s)
      else Repeat('░', 10)
  }

  /** The colour of a risk score: green up to 3, yellow up to 7, red above. */
  function RiskColour(s: int): string {
    if s <= 3 then Green else if s <= 7 then Yellow else Red
  }

  /** `_get_risk_bar`: `score` dots of the score's colour, then white dots up
      to ten; ten white dots when `int(score)` fails or either count does not
      fit an index. Never raises. */
  function RiskBar(score: Json): (bar: string)
    ensures ToInt(score).None? ==> Copies(bar, White, 10)
    ensures ToInt(score).Some? && 0 <= ToInt(score).value <= 10 ==>
              var s := ToInt(score).value;
              |bar| == 10 && Copies(bar[..s], RiskColour(s), s) && Copies(bar[s..], White, 10 - s)
    ensures ToInt(score).Some? && 10 < ToInt(score).value < IndexLimit ==> Copies(bar, Red, ToInt(score).value)
    ensures ToInt(score).Some? && 10 - IndexLimit < ToInt(score).value < 0 ==>
              Copies(bar, White, 10 - ToInt(score).value)
    ensures ToInt(score).Some? && !(10 - IndexLimit < ToInt(score).value < IndexLimit) ==> Copies(bar, White, 10)
  {
    match ToInt(score)
    case None => Repeat(White[0], 10)
    case Some(s) =>
      if FitsIndex(s) && FitsIndex(10 - s) then Repeat(RiskColour(s)[0], s) + Repeat(White[0], 10 - s)
      else Repeat(White[0], 10)
  }

  /** The items `for item in items` visits, as text: a list's items, a
      string's characters, a dictionary's keys. */
  function Members(items: Json): seq<string>
    requires items.JList? || items.JStr? || items.JObj?
  {
    match items
    case JList(xs) => seq(|xs|, k requires 0 <= k < |xs| => Str(xs[k]))
    case JStr(s) => seq(|s|, k requires 0 <= k < |s| => [s[k]])
    case JObj(fs) => seq(|fs|, k requires 0 <= k < |fs| => fs[k].0)
  }

  /** The lines `_format_list` joins: one "- item" per member, in order. */
  function Bullets(members: seq<string>): (lines: seq<string>)
    ensures |lines| == |members|
    ensures forall k :: 0 <= k < |lines| ==> lines[k] == "- " + members[k]
  {
    seq(|members|, k requires 0 <= k < |members| => "- " + members[k])
  }

  const NoItems := "- 无"

  /** `_format_list`: "- 无" for an empty (or any falsy) value, otherwise one
      "- item" line per member, joined by newlines; iterating a truthy number
      or boolean raises. */
  function FormatList(items: Json): (r: Result<string>)
    ensures !Truthy(items) ==> r == Ok(NoItems)
    ensures r.Err? <==> Truthy(items) && (items.JInt? || items.JBool?)
    ensures Truthy(items) && (items.JList? || items.JStr? || items.JObj?) ==>
              r == Ok(Join(Bullets(Members(items)), "\n"))
  {
    if !Truthy(items) then Ok(NoItems)
    else if items.JInt? || items.JBool? then Err(TypeError("object is not iterable"))
    else Ok(Join(Bullets(Members(items)), "\n"))
  }

  /** For a non-empty list none of whose string items holds a newline, the
      formatted text has exactly one line per item, in order: nested lists
      and dicts print on one line, as `repr` escapes their newlines. */
  lemma FormatListLines(items: seq<Json>)
    requires |items| > 0
    requires forall k :: 0 <= k < |items| && items[k].JStr? ==> '\n' !in items[k].s
    ensures FormatList(JList(items)).Ok?
    ensures var lines := Split(FormatList(JList(items)).value, "\n");
            |lines| == |items| && forall k :: 0 <= k < |items| ==> lines[k] == "- " + Str(items[k])
  {
    var lines := Bullets(Members(JList(items)));
    forall k | 0 <= k < |lines|
      ensures '\n' !in lines[k]
    {
      if !items[k].JStr? {
        StrHasNoNewline(items[k]);
      }
      assert lines[k] == "- " + Str(items[k]);
    }
    SplitJoin(lines, '\n');
  }

  /** The stock folder name: every ".SH", then every ".SZ", then every ".HK"
      removed (reports/report_generator.py:26). */
  function CleanStockCode(code: string): string {
    Replace(Replace(Replace(code, ".SH", ""), ".SZ", ""), ".HK", "")
  }

  /** No occurrence of a dot-led pattern in `base + tail` when `base` has no
      dot and the pattern never starts at a dot of `tail`. */
  lemma DotPatternAbsent(base: string, tail: string, p: string)
    requires '.' !in base && |p| > 0 && p[0] == '.'
    requires forall j :: 0 <= j < |tail| && tail[j] == '.' ==> !OccursAt(tail, p, j)
    ensures !Contains(base + tail, p)
  {
    if Contains(base + tail, p) {
      var k := IndexOf(base + tail, p).value;
      OccurrenceInTail(base, tail, p, k);
      assert false;
    }
  }

  /** A dot-led occurrence in `base + tail` with a dot-free `base` lies in `tail`. */
  lemma OccurrenceInTail(base: string, tail: string, p: string, k: nat)
    requires '.' !in base && |p| > 0 && p[0] == '.' && OccursAt(base + tail, p, k)
    ensures k >= |base| && OccursAt(tail, p, k - |base|) && tail[k - |base|] == '.'
  {
    var s := base + tail;
    assert s[k] == s[k..k + |p|][0] == '.';
    assert forall i :: 0 <= i < |base| ==> s[i] == base[i];
    assert tail[k - |base|..k - |base| + |p|] == s[k..k + |p|];
  }

  /** Deleting an absent pattern changes nothing. */
  lemma ReplaceAbsent(s: string, p: string)
    requires |p| > 0 && !Contains(s, p)
    ensures Replace(s, p, "") == s
  {
  }

  /** A code without dots is its own folder name, and so is the code with one
      of the three exchange suffixes appended. */
  lemma CleanExchangeCode(base: string)
    requires '.' !in base
    ensures CleanStockCode(base) == base
    ensures CleanStockCode(base + ".SH") == base
    ensures CleanStockCode(base + ".SZ") == base
    ensures CleanStockCode(base + ".HK") == base
  {
    DotPatternAbsent(base, "", ".SH");
    DotPatternAbsent(base, "", ".SZ");
    DotPatternAbsent(base, "", ".HK");
    ReplaceAbsent(base, ".SH");
    ReplaceAbsent(base, ".SZ");
    ReplaceAbsent(base, ".HK");
    CleanShanghai(base);
    CleanShenzhen(base);
    CleanHongKong(base);
  }

  lemma CleanShanghai(base: string)
    requires '.' !in base && Replace(base, ".SZ", "") == base && Replace(base, ".HK", "") == base
    requires !Contains(base, ".SH")
    ensures Replace(base + ".SH", ".SH", "") == base
  {
    DotPatternAbsent(base, ".S", ".SH");
    ReplaceSuffix(base, ".SH");
  }

  lemma CleanShenzhen(base: string)
    requires '.' !in base && Replace(base, ".HK", "") == base && !Contains(base, ".SZ")
    ensures Replace(Replace(base + ".SZ", ".SH", ""), ".SZ", "") == base
  {
    assert !OccursAt(".SZ", ".SH", 0) by { assert ".SZ"[0..3][2] != ".SH"[2]; }
    DotPatternAbsent(base, ".SZ", ".SH");
    ReplaceAbsent(base + ".SZ", ".SH");
    DotPatternAbsent(base, ".S", ".SZ");
    ReplaceSuffix(base, ".SZ");
  }

  lemma CleanHongKong(base: string)
    requires '.' !in base && !Contains(base, ".HK")
    ensures Replace(Replace(Replace(base + ".HK", ".SH", ""), ".SZ", ""), ".HK", "") == base
  {
    assert !OccursAt(".HK", ".SH", 0) by { assert ".HK"[0..3][1] != ".SH"[1]; }
    assert !OccursAt(".HK", ".SZ", 0) by { assert ".HK"[0..3][1] != ".SZ"[1]; }
    DotPatternAbsent(base, ".HK", ".SH");
    ReplaceAbsent(base + ".HK", ".SH");
    DotPatternAbsent(base, ".HK", ".SZ");
    ReplaceAbsent(base + ".HK", ".SZ");
    DotPatternAbsent(base, ".H", ".HK");
    ReplaceSuffix(base, ".HK");
  }

  /** `os.path.join(a, b)` on POSIX: an absolute `b` replaces `a`; otherwise a
      slash is inserted unless `a` is empty or already ends with one. */
  function PathJoin(a: string, b: string): (r: string)
    ensures (b == [] || b[0] != '/') && a != [] && a[|a| - 1] != '/' ==> r == a + "/" + b
    ensures b != [] && b[0] == '/' ==> r == b
  {
    if b != [] && b[0] == '/' then b
    else if a == [] || a[|a| - 1] == '/' then a + b
    else a + "/" + b
  }

  /** `reports/<clean code>/<date>`: the folder of one day's reports. */
  function DateDir(outputDir: string, stockCode: string, day: string): string {
    PathJoin(PathJoin(outputDir, CleanStockCode(stockCode)), day)
  }

  /** The Markdown report's path (reports/report_generator.py:34). */
  function MarkdownPath(outputDir: string, stockCode: string, day: string, hms: string): string {
    PathJoin(DateDir(outputDir, stockCode, day), MarkdownName(hms))
  }

  /** `analysis_<time>.md`. */
  function MarkdownName(hms: string): (name: string)
    ensures name != [] && name[0] == 'a'
  {
    "analysis_" + hms + ".md"
  }

  /** The JSON dump's path (reports/report_generator.py:35). */
  function JsonPath(outputDir: string, stockCode: string, day: string, hms: string): string {
    PathJoin(DateDir(outputDir, stockCode, day), "analysis_" + hms + ".json")
  }

  /** A relative file name joined onto a folder stays at the end of the path. */
  lemma JoinEndsWith(folder: string, name: string)
    requires name == [] || name[0] != '/'
    ensures EndsWith(PathJoin(folder, name), name)
  {
    var r := PathJoin(folder, name);
    assert r[|r| - |name|..] == name;
  }

  /** The two files of one report share their folder and their stem and
      differ only in the extension. */
  lemma ReportFilesPair(outputDir: string, stockCode: string, day: string, hms: string)
    ensures var stem := PathJoin(DateDir(outputDir, stockCode, day), "analysis_" + hms);
            MarkdownPath(outputDir, stockCode, day, hms) == stem + ".md"
            && JsonPath(outputDir, stockCode, day, hms) == stem + ".json"
  {
    var d := DateDir(outputDir, stockCode, day);
    var name := "analysis_" + hms;
    assert name[0] == (name + ".md")[0] == (name + ".json")[0] == 'a';
    if d == [] || d[|d| - 1] == '/' {
      assert PathJoin(d, name + ".md") == d + name + ".md";
      assert PathJoin(d, name + ".json") == d + name + ".json";
    } else {
      assert PathJoin(d, name + ".md") == d + "/" + name + ".md";
      assert PathJoin(d, name + ".json") == d + "/" + name + ".json";
    }
  }

  /** The link of the summary table: one leading "reports/" dropped. */
  function LinkPath(reportFile: string): string {
    if StartsWith(reportFile, "reports/") then reportFile[8..] else reportFile
  }

  /** `LinkPath` drops the prefix exactly once. */
  lemma LinkDropsPrefixOnce(rest: string)
    ensures LinkPath("reports/" + rest) == rest
    ensures !StartsWith(rest, "reports/") ==> LinkPath(rest) == rest
  {
    assert ("reports/" + rest)[..8] == "reports/";
    assert ("reports/" + rest)[8..] == rest;
  }

  /** Under the default output folder, a report of a plain exchange code lands
      in `reports/<code>/<date>/analysis_<time>.md`, and the summary links it
      relative to the reports folder. */
  lemma DefaultReportLink(base: string, suffix: string, day: string, hms: string)
    requires '.' !in base && '/' !in base && base != []
    requires suffix in {"", ".SH", ".SZ", ".HK"}
    requires day != [] && day[0] != '/' && day[|day| - 1] != '/'
    ensures var path := MarkdownPath("reports", base + suffix, day, hms);
            LinkPath(path) == base + "/" + day + "/" + MarkdownName(hms)
            && path == "reports/" + LinkPath(path)
  {
    CleanExchangeCode(base);
    assert base + "" == base;
    FolderLayout(base + suffix, base, day, hms);
  }

  /** Three joins of relative, slash-free-ended parts insert one slash each. */
  lemma JoinChain(a: string, b: string, c: string, e: string)
    requires a != [] && a[|a| - 1] != '/'
    requires b != [] && b[0] != '/' && b[|b| - 1] != '/'
    requires c != [] && c[0] != '/' && c[|c| - 1] != '/'
    requires e != [] && e[0] != '/'
    ensures PathJoin(PathJoin(PathJoin(a, b), c), e) == a + "/" + b + "/" + c + "/" + e
  {
    var ab := a + "/" + b;
    assert ab[|ab| - 1] == b[|b| - 1];
    var abc := ab + "/" + c;
    assert abc[|abc| - 1] == c[|c| - 1];
  }

  /** The path of a report whose folder name is `base`, under "reports". */
  lemma FolderLayout(code: string, base: string, day: string, hms: string)
    requires CleanStockCode(code) == base
    requires '/' !in base && base != []
    requires day != [] && day[0] != '/' && day[|day| - 1] != '/'
    ensures var path := MarkdownPath("reports", code, day, hms);
            LinkPath(path) == base + "/" + day + "/" + MarkdownName(hms)
            && path == "reports/" + LinkPath(path)
  {
    var rest := base + "/" + day + "/" + MarkdownName(hms);
    var path := MarkdownPath("reports", code, day, hms);
    assert path == "reports/" + rest by {
      assert base[0] in base && base[|base| - 1] in base;
      JoinChain("reports", base, day, MarkdownName(hms));
    }
    LinkDropsPrefixOnce(rest);
  }
}
