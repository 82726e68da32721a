/** The e-mail sender (utils/email_sender.py): its configuration from the
    environment, and the reading of the summary page's table that the
    message body is built from. */
module EmailSending {
  import opened Text
  import opened JsonValues
  import opened ReportSummary

  /** One stock read back from the summary table: the `stocks_info` dictionary. */
  datatype Entry = Entry(code: string, name: string, action: string, confidence: string, risk: string)

  /** The text that marks the table's header line. */
  const Marker := "| 股票代码 |"

  /** `[p.strip() for p in line.split('|')[1:-1]]`: the stripped cells
      between the first and the last bar. */
  function InnerCells(line: string): seq<string> {
    var parts := Split(line, "|");
    if |parts| < 2 then []
    else seq(|parts| - 2, k requires 0 <= k < |parts| - 2 => Strip(parts[k + 1]))
  }

  /** The entry a table line yields: one when it has at least five cells. */
  function RowEntry(line: string): Option<Entry> {
    var cells := InnerCells(line);
    if |cells| >= 5 then Some(Entry(cells[0], cells[1], cells[2], cells[3], cells[4])) else None
  }

  /** A line gives an entry exactly when it has five cells or more; the
      entry is made of the first five, each one stripped. */
  lemma RowEntryShape(line: string)
    ensures RowEntry(line).Some? <==> |InnerCells(line)| >= 5
    ensures forall k :: 0 <= k < |InnerCells(line)| ==> Stripped(InnerCells(line)[k])
    ensures var r := RowEntry(line);
            r.Some? ==> r.value.code == InnerCells(line)[0] && r.value.risk == InnerCells(line)[4]
                        && Stripped(r.value.code) && Stripped(r.value.name) && Stripped(r.value.action)
                        && Stripped(r.value.confidence) && Stripped(r.value.risk)
  {
    var parts := Split(line, "|");
    forall k | 0 <= k < |parts| {
      StripIsSlice(parts[k]);
    }
  }

  /** What reading `lines` collects, `started` telling whether a header
      line has been seen: lines up to the header are skipped, a line holding
      the header text (re)starts the table, a bar line without `---` is a
      row, and the first line after the header that does not start with a
      bar ends the table. */
  function Scan(lines: seq<string>, started: bool): seq<Entry>
    decreases |lines|
  {
    if lines == [] then []
    else
      var line := lines[0];
      if Contains(line, Marker) then Scan(lines[1..], true)
      else if started && StartsWith(line, "|") && !Contains(line, "---") then
        (match RowEntry(line) case Some(e) => [e] case None => []) + Scan(lines[1..], true)
      else if started && !StartsWith(line, "|") then []
      else Scan(lines[1..], started)
  }

  /** Reading yields at most one entry per line. */
  lemma {:induction false} ScanBounded(lines: seq<string>, started: bool)
    ensures |Scan(lines, started)| <= |lines|
    decreases |lines|
  {
    if lines != [] {
      ScanBounded(lines[1..], true);
      ScanBounded(lines[1..], started);
    }
  }

  /** The table loop of `_create_email_body`
      (utils/email_sender.py:107-128), with its `table_started` flag and
      its `break`. */
  method ExtractTable(summaryContent: string) returns (stocks: seq<Entry>)
    ensures stocks == Scan(Split(summaryContent, "\n"), false)
  {
    var lines := Split(summaryContent, "\n");
    var tableStarted := false;
    stocks := [];
    var i := 0;
    while i < |lines|
      invariant 0 <= i <= |lines|
      invariant stocks + Scan(lines[i..], tableStarted) == Scan(lines, false)
    {
      var line := lines[i];
      assert lines[i..][0] == line && lines[i..][1..] == lines[i + 1..];
      if Contains(line, Marker) {
        tableStarted := true;
        i := i + 1;
        continue;
      } else if tableStarted && StartsWith(line, "|") && !Contains(line, "---") {
        var parts := InnerCells(line);
        if |parts| >= 5 {
          stocks := stocks + [Entry(parts[0], parts[1], parts[2], parts[3], parts[4])];
        }
      } else if tableStarted && !StartsWith(line, "|") {
        break;
      }
      i := i + 1;
    }
  }

  /** Text a table cell may hold: no bar and no newline. */
  predicate CellText(s: string) {
    '|' !in s && '\n' !in s
  }

  /** Cells that the table reader gives back as written: plain text,
      stripped, and a row line that neither holds the header text nor `---`. */
  predicate ReadBack(c: Cells) {
    && CellText(c.code) && CellText(c.name) && CellText(c.action)
    && CellText(c.confidence) && CellText(c.risk) && CellText(c.link)
    && Stripped(c.code) && Stripped(c.name) && Stripped(c.action)
    && Stripped(c.confidence) && Stripped(c.risk)
    && !Contains(RowLine(c), Marker) && !Contains(RowLine(c), "---")
  }

  /** The entry a summary row should read back as. */
  function EntryOf(c: Cells): Entry {
    Entry(c.code, c.name, c.action, c.confidence + "/10", c.risk)
  }

  function Entries(cells: seq<Cells>): (stocks: seq<Entry>)
    ensures |stocks| == |cells|
    ensures forall k :: 0 <= k < |cells| ==> stocks[k] == EntryOf(cells[k])
  {
    seq(|cells|, k requires 0 <= k < |cells| => EntryOf(cells[k]))
  }

  /** A row line starts with a bar, holds no newline, and reads back as
      its entry. */
  lemma RowReadBack(c: Cells)
    requires ReadBack(c)
    ensures StartsWith(RowLine(c), "|") && '\n' !in RowLine(c)
    ensures RowEntry(RowLine(c)) == Some(EntryOf(c))
  {
    RowSplit(c);
    RowEntryOf(c);
  }

  /** With plain cells, the row line splits back into its pieces. */
  lemma RowSplit(c: Cells)
    requires CellText(c.code) && CellText(c.name) && CellText(c.action)
    requires CellText(c.confidence) && CellText(c.risk) && CellText(c.link)
    ensures Split(RowLine(c), "|") == RowPieces(c)
    ensures StartsWith(RowLine(c), "|") && '\n' !in RowLine(c)
  {
    var p := RowPieces(c);
    var line := RowLine(c);
    forall k | 0 <= k < |p|
      ensures '|' !in p[k] && '\n' !in p[k]
    {
    }
    SplitJoin(p, '|');
    JoinLacks(p, "|", '\n');
    assert line == "" + "|" + Join(p[1..], "|");
    EndCharacters(line, '|');
  }

  /** With stripped cells, the pieces of a row give back its entry. */
  lemma RowEntryOf(c: Cells)
    requires Split(RowLine(c), "|") == RowPieces(c)
    requires Stripped(c.code) && Stripped(c.name) && Stripped(c.action)
    requires Stripped(c.confidence) && Stripped(c.risk)
    ensures RowEntry(RowLine(c)) == Some(EntryOf(c))
  {
    var p := RowPieces(c);
    var confidence := c.confidence + "/10";
    assert Stripped(confidence) by {
      assert confidence[|confidence| - 1] == '0';
      if c.confidence != [] {
        assert confidence[0] == c.confidence[0];
      } else {
        assert confidence[0] == '/';
      }
    }
    assert p[4] == " " + confidence + " ";
    StripPadded(c.code);
    StripPadded(c.name);
    StripPadded(c.action);
    StripPadded(confidence);
    StripPadded(c.risk);
  }

  /** Lines without a bar, before the header, are skipped. */
  lemma {:induction false} ScanSkips(lines: seq<string>, k: nat)
    requires k <= |lines|
    requires forall i :: 0 <= i < k ==> '|' !in lines[i]
    ensures Scan(lines, false) == Scan(lines[k..], false)
    decreases k
  {
    if k > 0 {
      Absent(lines[0], Marker);
      assert forall i :: 0 <= i < k - 1 ==> lines[1..][i] == lines[i + 1];
      ScanSkips(lines[1..], k - 1);
      assert lines[1..][k - 1..] == lines[k..];
    }
  }

  /** Once the table has started, the summary's row lines read back as
      their entries, and the empty line after them ends the table. */
  lemma {:induction false} ScanRows(cells: seq<Cells>, more: seq<string>)
    requires forall k :: 0 <= k < |cells| ==> ReadBack(cells[k])
    ensures Scan(RowLines(cells) + [""] + more, true) == Entries(cells)
    decreases |cells|
  {
    var lines := RowLines(cells) + [""] + more;
    if cells == [] {
      assert lines[0] == "";
      Absent("", Marker);
      EndCharacters("", '|');
    } else {
      assert lines[0] == RowLine(cells[0]);
      ScanRowStep(lines, cells[0]);
      RowLinesTail(cells, more);
      ScanRows(cells[1..], more);
      EntriesCons(cells);
    }
  }

  lemma RowLinesTail(cells: seq<Cells>, more: seq<string>)
    requires cells != []
    ensures (RowLines(cells) + [""] + more)[1..] == RowLines(cells[1..]) + [""] + more
  {
    var lines := RowLines(cells) + [""] + more;
    var rest := RowLines(cells[1..]) + [""] + more;
    assert |lines[1..]| == |rest|;
    forall k | 0 <= k < |rest|
      ensures lines[1..][k] == rest[k]
    {
      if k < |cells| - 1 {
        assert lines[k + 1] == RowLine(cells[k + 1]);
      }
    }
  }

  lemma EntriesCons(cells: seq<Cells>)
    requires cells != []
    ensures Entries(cells) == [EntryOf(cells[0])] + Entries(cells[1..])
  {
    var rest := [EntryOf(cells[0])] + Entries(cells[1..]);
    forall k | 0 <= k < |cells|
      ensures Entries(cells)[k] == rest[k]
    {
      if k > 0 {
        assert rest[k] == Entries(cells[1..])[k - 1];
      }
    }
  }

  /** Inside the table, a summary row line yields its entry. */
  lemma ScanRowStep(lines: seq<string>, c: Cells)
    requires |lines| > 0 && lines[0] == RowLine(c) && ReadBack(c)
    ensures Scan(lines, true) == [EntryOf(c)] + Scan(lines[1..], true)
  {
    RowReadBack(c);
  }

  /** The header line holds the header text; the rule under it does not,
      starts with a bar and holds `---`. */
  lemma HeaderLines()
    ensures Contains(TableHeader, Marker)
    ensures !Contains(TableRule, Marker) && StartsWith(TableRule, "|") && Contains(TableRule, "---")
  {
    assert TableHeader[..|Marker|] == Marker;
    OccursContains(TableHeader, Marker, 0);
    assert TableRule[1] == '-' && TableRule[2] == '-' && TableRule[3] == '-';
    assert TableRule[1..4] == "---";
    OccursContains(TableRule, "---", 1);
    assert ' ' !in TableRule;
    if Contains(TableRule, Marker) {
      ContainsChars(TableRule, Marker, 1);
    }
  }

  /** Reading the summary page back gives one entry per result, in order,
      with the cells the row was written with, provided no cell holds a
      bar or a newline, each is stripped, and no row holds the header text
      or `---` (utils/email_sender.py:113-126, reports/report_generator.py:327-350). */
  lemma SummaryReadBack(mode: string, now: string, results: seq<Json>)
    requires AllSummarizable(results)
    requires CellText(now)
    requires forall k :: 0 <= k < |results| ==> ReadBack(AllCells(results)[k])
    ensures Scan(Split(SummaryText(mode, now, results), "\n"), false) == Entries(AllCells(results))
  {
    var cells := AllCells(results);
    forall k | 0 <= k < |results|
      ensures '\n' !in RowLine(cells[k])
    {
      RowReadBack(cells[k]);
    }
    SummaryLines(mode, now, results);
    var pre := PreambleLines(mode, now, |results|);
    var more :| Split(SummaryText(mode, now, results), "\n") == pre + RowLines(cells) + [""] + more;
    NewlineFreePreamble(mode, now, |results|);
    ScanPage(pre, cells, more);
  }

  /** A page whose lines before the header hold no bar reads as its rows. */
  lemma ScanPage(pre: seq<string>, cells: seq<Cells>, more: seq<string>)
    requires |pre| == 12 && pre[10] == TableHeader && pre[11] == TableRule
    requires forall i :: 0 <= i < 10 ==> '|' !in pre[i]
    requires forall k :: 0 <= k < |cells| ==> ReadBack(cells[k])
    ensures Scan(pre + RowLines(cells) + [""] + more, false) == Entries(cells)
  {
    var table := RowLines(cells) + [""] + more;
    var lines := pre + RowLines(cells) + [""] + more;
    assert lines == pre + table;
    forall i | 0 <= i < 10
      ensures '|' !in lines[i]
    {
      assert lines[i] == pre[i];
    }
    ScanSkips(lines, 10);
    assert lines[10..] == pre[10..] + table;
    assert pre[10..] == [TableHeader, TableRule];
    ScanTable(table);
    ScanRows(cells, more);
  }

  /** The header line starts the table and the rule under it is passed over. */
  lemma ScanTable(table: seq<string>)
    ensures Scan([TableHeader, TableRule] + table, false) == Scan(table, true)
  {
    var lines := [TableHeader, TableRule] + table;
    HeaderLines();
    assert lines[1..] == [TableRule] + table;
    assert lines[1..][1..] == table;
  }

  /** The rows the summary counts under a word are counted by the e-mail too. */
  lemma {:induction false} RowsCounted(cells: seq<Cells>, word: string)
    ensures CountRows(cells, word) <= CountContaining(Entries(cells), word)
    decreases |cells|
  {
    if cells != [] {
      var n := |cells| - 1;
      RowsCounted(cells[..n], word);
      assert Entries(cells)[..n] == Entries(cells[..n]);
      if cells[n].action == word {
        OccursContains(word, word, 0);
      }
    }
  }

  /** The e-mail's buy, hold and sell numbers for a summary page are at
      least the page's own counts: every result whose action is the word
      is a row whose action contains it. */
  lemma SummaryCountsInEmail(mode: string, now: string, results: seq<Json>, word: string)
    requires AllSummarizable(results)
    requires CellText(now)
    requires forall k :: 0 <= k < |results| ==> ReadBack(AllCells(results)[k])
    requires Word(word)
    ensures var stocks := Scan(Split(SummaryText(mode, now, results), "\n"), false);
            |stocks| == |results| && CountAction(results, word) <= CountContaining(stocks, word)
  {
    SummaryReadBack(mode, now, results);
    CountIsRowCount(results, word);
    RowsCounted(AllCells(results), word);
  }

  /** `sum(1 for s in stocks_info if word in s['action'])`
      (utils/email_sender.py:131-133). */
  function CountContaining(stocks: seq<Entry>, word: string): (n: nat)
    ensures n <= |stocks|
    decreases |stocks|
  {
    if stocks == [] then 0
    else CountContaining(stocks[..|stocks| - 1], word)
         + (if Contains(stocks[|stocks| - 1].action, word) then 1 else 0)
  }

  /** The counts test containment, not equality, so one action that holds
      two of the words is counted twice and the counts can exceed the number
      of stocks. */
  lemma CountsOverlap()
    ensures var stocks := [Entry("600519.SH", "贵州茅台", "买入持有", "8/10", "中")];
            CountContaining(stocks, Buy) + CountContaining(stocks, Hold) > |stocks|
  {
    var action := "买入持有";
    assert OccursAt(action, Buy, 0) && OccursAt(action, Hold, 2);
    OccursContains(action, Buy, 0);
    OccursContains(action, Hold, 2);
    var stocks := [Entry("600519.SH", "贵州茅台", action, "8/10", "中")];
    assert stocks[..0] == [];
  }

  /** The colour class of a row in the message. */
  datatype Style = BuyStyle | HoldStyle | SellStyle

  /** `action-buy` if the action mentions buying, else `action-hold` if it
      mentions holding, else `action-sell` (utils/email_sender.py:201). */
  function ActionClass(action: string): (r: Style)
    ensures r == BuyStyle <==> Contains(action, Buy)
    ensures r == HoldStyle <==> !Contains(action, Buy) && Contains(action, Hold)
  {
    if Contains(action, Buy) then BuyStyle
    else if Contains(action, Hold) then HoldStyle
    else SellStyle
  }

  /** The three decisions get their own class; any other action, a
      wait-and-see "观望" or a missing "N/A", gets the sell class. */
  lemma ActionClasses()
    ensures ActionClass(Buy) == BuyStyle && ActionClass(Hold) == HoldStyle && ActionClass(Sell) == SellStyle
    ensures ActionClass("观望") == SellStyle && ActionClass(NA.s) == SellStyle
  {
    OccursContains(Buy, Buy, 0);
    OccursContains(Hold, Hold, 0);
    Absent(Hold, Buy);
    Absent(Sell, Buy);
    Absent(Sell, Hold);
    Absent("观望", Buy);
    Absent("观望", Hold);
    Absent(NA.s, Buy);
    Absent(NA.s, Hold);
  }

  /** A text without the first character of a word does not contain it. */
  lemma Absent(s: string, word: string)
    requires word != [] && word[0] !in s
    ensures !Contains(s, word)
  {
    if Contains(s, word) {
      ContainsChars(s, word, 0);
    }
  }

  /** What the message body shows: the number of stocks, the three counts,
      each row with its class, and the number of detailed reports. The HTML
      around them is fixed text. */
  datatype EmailBody = EmailBody(stockCount: nat, buy: nat, hold: nat, sell: nat,
                                 rows: seq<(Entry, Style)>, reportCount: int)

  /** `_create_email_body` (utils/email_sender.py:104-230): the table is
      read, counted, and one row is rendered per stock. */
  method CreateEmailBody(summaryContent: string, reportCount: int) returns (body: EmailBody)
    ensures var stocks := Scan(Split(summaryContent, "\n"), false);
            && body.stockCount == |stocks| && body.reportCount == reportCount
            && body.buy == CountContaining(stocks, Buy)
            && body.hold == CountContaining(stocks, Hold)
            && body.sell == CountContaining(stocks, Sell)
            && |body.rows| == |stocks|
            && forall k :: 0 <= k < |stocks| ==> body.rows[k] == (stocks[k], ActionClass(stocks[k].action))
  {
    var stocks := ExtractTable(summaryContent);
    var buy := CountContaining(stocks, Buy);
    var hold := CountContaining(stocks, Hold);
    var sell := CountContaining(stocks, Sell);
    var rows: seq<(Entry, Style)> := [];
    for k := 0 to |stocks|
      invariant |rows| == k
      invariant forall j :: 0 <= j < k ==> rows[j] == (stocks[j], ActionClass(stocks[j].action))
    {
      rows := rows + [(stocks[k], ActionClass(stocks[k].action))];
    }
    body := EmailBody(|stocks|, buy, hold, sell, rows, reportCount);
  }

  /** The process environment, as `os.getenv` sees it. */
  type Environment = map<string, string>

  /** `os.getenv(key, default)`. */
  function Getenv(env: Environment, key: string, default: string): string {
    if key in env then env[key] else default
  }

  /** `str.lower()` on one character, for the ASCII letters. */
  function LowerChar(c: char): char {
    if 'A' <= c <= 'Z' then (c as int - 'A' as int + 'a' as int) as char else c
  }

  function Lower(s: string): (r: string)
    ensures |r| == |s|
    ensures forall k :: 0 <= k < |s| ==> r[k] == LowerChar(s[k])
  {
    seq(|s|, k requires 0 <= k < |s| => LowerChar(s[k]))
  }

  /** The spellings of `EMAIL_ENABLED` that turn the sender on: "true" in
      any mix of upper and lower case, and nothing else. */
  lemma EnabledSpellings(s: string)
    ensures Lower(s) == "true" <==>
              |s| == 4 && s[0] in "tT" && s[1] in "rR" && s[2] in "uU" && s[3] in "eE"
  {
    if |s| == 4 {
      var t := "true";
      var l := Lower(s);
      if l == t {
        assert LowerChar(s[0]) == 't' && LowerChar(s[1]) == 'r';
        assert LowerChar(s[2]) == 'u' && LowerChar(s[3]) == 'e';
      }
      if s[0] in "tT" && s[1] in "rR" && s[2] in "uU" && s[3] in "eE" {
        assert l[0] == 't' && l[1] == 'r' && l[2] == 'u' && l[3] == 'e';
        assert l == t;
      }
    }
  }

  /** The stripped, non-empty parts of a comma-split list. */
  function KeepAddresses(parts: seq<string>): (rs: seq<string>)
    ensures |rs| <= |parts|
    ensures forall k :: 0 <= k < |rs| ==> rs[k] != "" && Stripped(rs[k])
    decreases |parts|
  {
    if parts == [] then []
    else
      StripIsSlice(parts[0]);
      (if Strip(parts[0]) != "" then [Strip(parts[0])] else []) + KeepAddresses(parts[1..])
  }

  /** `[email.strip() for email in raw.split(",") if email.strip()]`
      (utils/email_sender.py:26-30): every recipient is a non-empty,
      stripped address without a comma. */
  function Recipients(raw: string): (rs: seq<string>)
    ensures forall k :: 0 <= k < |rs| ==> rs[k] != "" && Stripped(rs[k]) && ',' !in rs[k]
  {
    var parts := Split(raw, ",");
    SplitPiecesLack(raw, ',');
    KeepLacks(parts, ',');
    KeepAddresses(parts)
  }

  /** Stripping keeps a part free of a character it lacks. */
  lemma {:induction false} KeepLacks(parts: seq<string>, c: char)
    requires forall k :: 0 <= k < |parts| ==> c !in parts[k]
    ensures forall k :: 0 <= k < |KeepAddresses(parts)| ==> c !in KeepAddresses(parts)[k]
    decreases |parts|
  {
    if parts != [] {
      StripIsSlice(parts[0]);
      KeepLacks(parts[1..], c);
    }
  }

  /** Clean addresses are kept as they are. */
  lemma {:induction false} KeepClean(rs: seq<string>)
    requires forall k :: 0 <= k < |rs| ==> rs[k] != "" && Stripped(rs[k])
    ensures KeepAddresses(rs) == rs
    decreases |rs|
  {
    if rs != [] {
      StrippedFixed(rs[0]);
      KeepClean(rs[1..]);
    }
  }

  /** Writing a recipient list as `RECIPIENT_EMAILS`, comma-separated, and
      reading it back gives the same list. */
  lemma RecipientsRoundTrip(rs: seq<string>)
    requires forall k :: 0 <= k < |rs| ==> rs[k] != "" && Stripped(rs[k]) && ',' !in rs[k]
    ensures Recipients(Join(rs, ",")) == rs
  {
    if rs == [] {
      assert Split("", ",") == [""];
      assert Strip("") == "";
    } else {
      SplitJoin(rs, ',');
      KeepClean(rs);
    }
  }

  class EmailSender {
    /** Whether reports are sent. */
    var enabled: bool
    const smtpServer: string
    const smtpPort: int
    const senderEmail: string
    const senderPassword: string
    const recipientEmails: seq<string>

    /** `__init__` (utils/email_sender.py:19-40), given the port it has
        already parsed: the sender is enabled by `EMAIL_ENABLED`, then
        disabled again when the address, the password or the recipients
        are missing. */
    constructor (env: Environment, port: int)
      ensures smtpServer == Getenv(env, "SMTP_SERVER", "smtp.qq.com") && smtpPort == port
      ensures senderEmail == Getenv(env, "SENDER_EMAIL", "")
      ensures senderPassword == Getenv(env, "SENDER_PASSWORD", "")
      ensures recipientEmails == Recipients(Getenv(env, "RECIPIENT_EMAILS", ""))
      ensures enabled <==> Lower(Getenv(env, "EMAIL_ENABLED", "false")) == "true"
                           && senderEmail != "" && senderPassword != "" && recipientEmails != []
    {
      enabled := Lower(Getenv(env, "EMAIL_ENABLED", "false")) == "true";
      smtpServer := Getenv(env, "SMTP_SERVER", "smtp.qq.com");
      smtpPort := port;
      senderEmail := Getenv(env, "SENDER_EMAIL", "");
      senderPassword := Getenv(env, "SENDER_PASSWORD", "");
      recipientEmails := Recipients(Getenv(env, "RECIPIENT_EMAILS", ""));
      new;
      if enabled {
        if !(senderEmail != "" && senderPassword != "" && recipientEmails != []) {
          enabled := false;
        }
      }
    }
  }

  /** `EmailSender()`: `int(os.getenv("SMTP_PORT", "587"))` raises
      `ValueError` for a port that is not a number, and no sender is made. */
  method NewEmailSender(env: Environment) returns (r: Result<EmailSender>)
    ensures r.Err? <==> ParseInt(Getenv(env, "SMTP_PORT", "587")).None?
    ensures r.Err? ==> r.fault.ValueError?
    ensures r.Ok? ==> fresh(r.value) && r.value.smtpPort == ParseInt(Getenv(env, "SMTP_PORT", "587")).value
    ensures r.Ok? ==> (r.value.enabled <==>
                         (&& Lower(Getenv(env, "EMAIL_ENABLED", "false")) == "true"
                          && Getenv(env, "SENDER_EMAIL", "") != ""
                          && Getenv(env, "SENDER_PASSWORD", "") != ""
                          && Recipients(Getenv(env, "RECIPIENT_EMAILS", "")) != []))
  {
    var port := ParseInt(Getenv(env, "SMTP_PORT", "587"));
    if port.None? {
      return Err(ValueError("int"));
    }
    var sender := new EmailSender(env, port.value);
    r := Ok(sender);
  }

  /** Without `SMTP_PORT` the port is 587. */
  lemma DefaultPort(env: Environment)
    requires "SMTP_PORT" !in env
    ensures ParseInt(Getenv(env, "SMTP_PORT", "587")) == Some(587)
  {
    NatRoundTrip(587);
    assert NatToDecimal(587) == "587";
  }
}
