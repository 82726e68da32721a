/** The selection rule of the reports folder index
    (reports/report_generator.py:409-440): for every stock folder, the five
    newest date folders, each linked to its latest Markdown report. The folder
    listing is given as a tree instead of being read from disk. */
module ReportIndex {
  import opened Text

  /** An entry of a directory listing, in the order `os.listdir` gives. */
  datatype Node = File(name: string) | Folder(name: string, children: seq<Node>)

  /** One index line: `- [<date>](<path>) - 最新分析报告`. */
  datatype Link = Link(date: string, path: string)

  /** One stock's part of the index: `### 📊 <stock>` and its links. */
  datatype Section = Section(stock: string, links: seq<Link>)

  /** Python's `a < b` on strings: lexicographic on code points, a proper
      prefix first. */
  predicate Less(a: string, b: string)
    decreases |a|
  {
    |b| > 0 && (|a| == 0 || a[0] < b[0] || (a[0] == b[0] && Less(a[1..], b[1..])))
  }

  lemma {:induction false} LessIrreflexive(a: string)
    ensures !Less(a, a)
    decreases |a|
  {
    if |a| > 0 {
      LessIrreflexive(a[1..]);
    }
  }

  lemma {:induction false} LessAsymmetric(a: string, b: string)
    requires Less(a, b)
    ensures !Less(b, a)
    decreases |a|
  {
    if |a| > 0 && a[0] == b[0] {
      LessAsymmetric(a[1..], b[1..]);
    }
  }

  lemma {:induction false} LessTransitive(a: string, b: string, c: string)
    requires Less(a, b) && Less(b, c)
    ensures Less(a, c)
    decreases |a|
  {
    if |a| > 0 && a[0] == b[0] && b[0] == c[0] {
      LessTransitive(a[1..], b[1..], c[1..]);
    }
  }

  /** Two different strings are ordered one way or the other. */
  lemma {:induction false} LessTotal(a: string, b: string)
    ensures a == b || Less(a, b) || Less(b, a)
    decreases |a|
  {
    if |a| > 0 && |b| > 0 && a[0] == b[0] {
      LessTotal(a[1..], b[1..]);
      if a[1..] == b[1..] {
        assert a == [a[0]] + a[1..] && b == [b[0]] + b[1..];
      }
    }
  }

  /** No later name is greater than an earlier one. */
  predicate Descending(names: seq<string>) {
    forall i, j :: 0 <= i < j < |names| ==> !Less(names[i], names[j])
  }

  /** Inserts `x` before the first name it is not less than. */
  function Insert(x: string, names: seq<string>): (r: seq<string>)
    ensures |r| == |names| + 1
    ensures multiset(r) == multiset(names) + multiset{x}
    decreases |names|
  {
    if names == [] || !Less(x, names[0]) then [x] + names
    else
      assert names == [names[0]] + names[1..];
      [names[0]] + Insert(x, names[1..])
  }

  /** `dates.sort(reverse=True)`: the names, newest first. */
  function SortDesc(names: seq<string>): (r: seq<string>)
    ensures |r| == |names|
    ensures multiset(r) == multiset(names)
    decreases |names|
  {
    if names == [] then []
    else
      assert names == [names[0]] + names[1..];
      Insert(names[0], SortDesc(names[1..]))
  }

  lemma {:induction false} InsertDescending(x: string, names: seq<string>)
    requires Descending(names)
    ensures Descending(Insert(x, names))
    decreases |names|
  {
    var r := Insert(x, names);
    if names == [] || !Less(x, names[0]) {
      forall i, j | 0 <= i < j < |r| ensures !Less(r[i], r[j]) {
        if i == 0 && j > 1 && Less(x, r[j]) {
          assert r[j] == names[j - 1];
          assert !Less(names[0], names[j - 1]);
          LessTotal(names[0], names[j - 1]);
          if names[0] != names[j - 1] {
            LessTransitive(x, names[j - 1], names[0]);
          }
        }
      }
    } else {
      var rest := Insert(x, names[1..]);
      InsertDescending(x, names[1..]);
      forall j | 1 <= j < |r| ensures !Less(names[0], r[j]) {
        assert r[j] == rest[j - 1];
        assert rest[j - 1] in multiset(rest);
        if rest[j - 1] == x {
          LessAsymmetric(x, names[0]);
        } else {
          assert rest[j - 1] in multiset(names[1..]);
          var m :| 0 <= m < |names[1..]| && names[1..][m] == rest[j - 1];
          assert names[m + 1] == rest[j - 1];
        }
      }
    }
  }

  lemma {:induction false} SortDescending(names: seq<string>)
    ensures Descending(SortDesc(names))
    decreases |names|
  {
    if names != [] {
      SortDescending(names[1..]);
      InsertDescending(names[0], SortDesc(names[1..]));
    }
  }

  /** `sorted(reports)[-1]`: the greatest name. */
  function Greatest(names: seq<string>): (g: string)
    requires |names| > 0
    ensures g in names
    decreases |names|
  {
    if |names| == 1 then names[0]
    else
      var g := Greatest(names[1..]);
      if Less(names[0], g) then g else names[0]
  }

  /** No name of the list is greater than its `Greatest`. */
  lemma {:induction false} GreatestIsMaximum(names: seq<string>)
    requires |names| > 0
    ensures forall k :: 0 <= k < |names| ==> !Less(Greatest(names), names[k])
    decreases |names|
  {
    if |names| > 1 {
      var g := Greatest(names[1..]);
      GreatestIsMaximum(names[1..]);
      forall k | 0 <= k < |names| ensures !Less(Greatest(names), names[k]) {
        if k == 0 {
          LessIrreflexive(names[0]);
          if Less(names[0], g) {
            LessAsymmetric(names[0], g);
          }
        } else {
          assert names[k] == names[1..][k - 1];
          if !Less(names[0], g) && Less(names[0], names[k]) {
            LessTotal(names[0], g);
            if names[0] != g {
              LessTransitive(g, names[0], names[k]);
            }
          }
        }
      }
    } else {
      LessIrreflexive(names[0]);
    }
  }

  /** The names of the sub-folders, in listing order (the date folders). */
  function FolderNames(nodes: seq<Node>): (names: seq<string>)
    ensures |names| <= |nodes|
    ensures forall k :: 0 <= k < |nodes| && nodes[k].Folder? ==> nodes[k].name in names
    decreases |nodes|
  {
    if nodes == [] then []
    else
      var last := nodes[|nodes| - 1];
      FolderNames(nodes[..|nodes| - 1]) + (if last.Folder? then [last.name] else [])
  }

  /** `[f for f in os.listdir(date_path) if f.endswith('.md')]`. */
  function MarkdownNames(nodes: seq<Node>): (names: seq<string>)
    ensures forall k :: 0 <= k < |names| ==> EndsWith(names[k], ".md")
    ensures forall k :: 0 <= k < |nodes| && EndsWith(nodes[k].name, ".md") ==> nodes[k].name in names
    decreases |nodes|
  {
    if nodes == [] then []
    else
      var last := nodes[|nodes| - 1];
      MarkdownNames(nodes[..|nodes| - 1]) + (if EndsWith(last.name, ".md") then [last.name] else [])
  }

  /** A name is a date folder exactly when some entry is a folder with that
      name: no folder is missed and nothing else is taken. */
  lemma {:induction false} FolderNamesExact(nodes: seq<Node>)
    ensures forall n :: n in FolderNames(nodes) <==> exists k :: 0 <= k < |nodes| && nodes[k].Folder? && nodes[k].name == n
    decreases |nodes|
  {
    if nodes != [] {
      var m := |nodes| - 1;
      var init := nodes[..m];
      FolderNamesExact(init);
      assert FolderNames(nodes) == FolderNames(init) + (if nodes[m].Folder? then [nodes[m].name] else []);
      forall n ensures n in FolderNames(nodes) <==> exists k :: 0 <= k < |nodes| && nodes[k].Folder? && nodes[k].name == n {
        if exists k :: 0 <= k < |nodes| && nodes[k].Folder? && nodes[k].name == n {
          var k :| 0 <= k < |nodes| && nodes[k].Folder? && nodes[k].name == n;
          if k < m {
            assert init[k] == nodes[k];
          }
        }
        if n in FolderNames(init) {
          var k :| 0 <= k < |init| && init[k].Folder? && init[k].name == n;
          assert nodes[k] == init[k];
        }
      }
    }
  }

  /** A name is taken as a report exactly when some entry has that name and
      it ends in `.md`: every Markdown entry is kept. */
  lemma {:induction false} MarkdownNamesExact(nodes: seq<Node>)
    ensures forall n :: n in MarkdownNames(nodes) <==> EndsWith(n, ".md") && exists k :: 0 <= k < |nodes| && nodes[k].name == n
    decreases |nodes|
  {
    if nodes != [] {
      var m := |nodes| - 1;
      var init := nodes[..m];
      MarkdownNamesExact(init);
      assert MarkdownNames(nodes) == MarkdownNames(init) + (if EndsWith(nodes[m].name, ".md") then [nodes[m].name] else []);
      forall n ensures n in MarkdownNames(nodes) <==> EndsWith(n, ".md") && exists k :: 0 <= k < |nodes| && nodes[k].name == n {
        if EndsWith(n, ".md") && exists k :: 0 <= k < |nodes| && nodes[k].name == n {
          var k :| 0 <= k < |nodes| && nodes[k].name == n;
          if k < m {
            assert init[k] == nodes[k];
          }
        }
        if n in MarkdownNames(init) {
          var k :| 0 <= k < |init| && init[k].name == n;
          assert nodes[k] == init[k];
        }
      }
    }
  }

  /** The entries of the first sub-folder called `name`. */
  function ChildrenOf(nodes: seq<Node>, name: string): seq<Node>
    decreases |nodes|
  {
    if nodes == [] then []
    else if nodes[0].Folder? && nodes[0].name == name then nodes[0].children
    else ChildrenOf(nodes[1..], name)
  }

  /** `dates[:5]` after sorting: at most five dates, newest first. */
  function NewestDates(dates: seq<string>): (top: seq<string>)
    ensures |top| <= 5
    ensures |top| == if |dates| < 5 then |dates| else 5
    ensures forall d :: d in top ==> d in dates
  {
    var sorted := SortDesc(dates);
    var top := if |sorted| > 5 then sorted[..5] else sorted;
    assert forall i :: 0 <= i < |top| ==> top[i] == sorted[i] && sorted[i] in multiset(dates);
    top
  }

  /** The link of a date folder that holds a Markdown report. */
  function DateLink(stock: string, date: string, reports: seq<string>): Link
    requires |reports| > 0
  {
    Link(date, stock + "/" + date + "/" + Greatest(reports))
  }

  /** The links of the given dates of one stock folder, in their order;
      dates without a Markdown report are skipped. */
  function DateLinks(stock: string, nodes: seq<Node>, dates: seq<string>): (links: seq<Link>)
    ensures |links| <= |dates|
    decreases |dates|
  {
    if dates == [] then []
    else
      var date := dates[|dates| - 1];
      var reports := MarkdownNames(ChildrenOf(nodes, date));
      DateLinks(stock, nodes, dates[..|dates| - 1]) + (if reports != [] then [DateLink(stock, date, reports)] else [])
  }

  /** Whether the index shows an entry: a folder whose name does not start
      with a dot. */
  predicate Shown(item: Node) {
    item.Folder? && !(|item.name| > 0 && item.name[0] == '.')
  }

  function SectionOf(item: Node): Section
    requires item.Folder?
  {
    Section(item.name, DateLinks(item.name, item.children, NewestDates(FolderNames(item.children))))
  }

  /** The sections of the index, one per shown entry, in listing order. */
  function Sections(items: seq<Node>): (sections: seq<Section>)
    ensures |sections| <= |items|
    decreases |items|
  {
    if items == [] then []
    else
      var last := items[|items| - 1];
      Sections(items[..|items| - 1]) + (if Shown(last) then [SectionOf(last)] else [])
  }

  /** `_generate_index_file`'s scan (reports/report_generator.py:411-440):
      one section per shown entry, its links from the newest date folders. */
  method CollectSections(listing: seq<Node>) returns (sections: seq<Section>)
    ensures sections == Sections(listing)
  {
    sections := [];
    for i := 0 to |listing|
      invariant sections == Sections(listing[..i])
    {
      var item := listing[i];
      assert listing[..i + 1][..i] == listing[..i];
      if item.Folder? && !(|item.name| > 0 && item.name[0] == '.') {
        var dates := DateFolders(item.children);
        dates := SortDesc(dates);
        var top := if |dates| > 5 then dates[..5] else dates;
        var links := LinksFor(item.name, item.children, top);
        sections := sections + [Section(item.name, links)];
      }
    }
    assert listing[..|listing|] == listing;
  }

  /** The loop that collects the date folders (reports/report_generator.py:421-425). */
  method DateFolders(nodes: seq<Node>) returns (dates: seq<string>)
    ensures dates == FolderNames(nodes)
  {
    dates := [];
    for j := 0 to |nodes|
      invariant dates == FolderNames(nodes[..j])
    {
      assert nodes[..j + 1][..j] == nodes[..j];
      if nodes[j].Folder? {
        dates := dates + [nodes[j].name];
      }
    }
    assert nodes[..|nodes|] == nodes;
  }

  /** The loop over the newest dates (reports/report_generator.py:430-438). */
  method LinksFor(stock: string, nodes: seq<Node>, top: seq<string>) returns (links: seq<Link>)
    ensures links == DateLinks(stock, nodes, top)
  {
    links := [];
    for k := 0 to |top|
      invariant links == DateLinks(stock, nodes, top[..k])
    {
      assert top[..k + 1][..k] == top[..k];
      var reports := MarkdownNames(ChildrenOf(nodes, top[k]));
      if reports != [] {
        var latest := Greatest(reports);
        links := links + [Link(top[k], stock + "/" + top[k] + "/" + latest)];
      }
    }
    assert top[..|top|] == top;
  }

  /** Every link of a section names one of the stock's date folders, and
      the links are newest first. */
  lemma {:induction false} LinksOfDates(stock: string, nodes: seq<Node>, dates: seq<string>)
    ensures forall k :: 0 <= k < |DateLinks(stock, nodes, dates)| ==> DateLinks(stock, nodes, dates)[k].date in dates
    ensures Descending(dates) ==> forall i, j :: 0 <= i < j < |DateLinks(stock, nodes, dates)| ==>
              !Less(DateLinks(stock, nodes, dates)[i].date, DateLinks(stock, nodes, dates)[j].date)
    decreases |dates|
  {
    if dates != [] {
      var init := dates[..|dates| - 1];
      var date := dates[|dates| - 1];
      LinksOfDates(stock, nodes, init);
      var links := DateLinks(stock, nodes, dates);
      var before := DateLinks(stock, nodes, init);
      assert forall k :: 0 <= k < |before| ==> links[k] == before[k];
      forall k | 0 <= k < |links| ensures links[k].date in dates {
        if k < |before| {
          assert links[k].date in init;
        } else {
          assert links[k].date == date;
        }
      }
      if Descending(dates) {
        assert Descending(init);
        forall i, j | 0 <= i < j < |links| ensures !Less(links[i].date, links[j].date) {
          if j >= |before| {
            assert links[j].date == date;
            assert links[i].date in init;
            var m :| 0 <= m < |init| && init[m] == links[i].date;
            assert dates[m] == links[i].date;
          }
        }
      }
    }
  }

  /** Some link of `links` is for `date`. */
  predicate HasLink(links: seq<Link>, date: string) {
    exists k :: 0 <= k < |links| && links[k].date == date
  }

  /** A date gets a link exactly when its folder holds a Markdown report. */
  lemma {:induction false} DatesWithReportsLinked(stock: string, nodes: seq<Node>, dates: seq<string>)
    ensures forall i :: 0 <= i < |dates| && MarkdownNames(ChildrenOf(nodes, dates[i])) != [] ==>
              HasLink(DateLinks(stock, nodes, dates), dates[i])
    ensures forall k :: 0 <= k < |DateLinks(stock, nodes, dates)| ==>
              MarkdownNames(ChildrenOf(nodes, DateLinks(stock, nodes, dates)[k].date)) != []
    decreases |dates|
  {
    if dates != [] {
      var n := |dates| - 1;
      var init := dates[..n];
      DatesWithReportsLinked(stock, nodes, init);
      var links := DateLinks(stock, nodes, dates);
      var before := DateLinks(stock, nodes, init);
      var reports := MarkdownNames(ChildrenOf(nodes, dates[n]));
      assert links == before + (if reports != [] then [DateLink(stock, dates[n], reports)] else []);
      forall i | 0 <= i < |dates| && MarkdownNames(ChildrenOf(nodes, dates[i])) != []
        ensures HasLink(links, dates[i])
      {
        if i == n {
          assert links[|before|].date == dates[i];
        } else {
          assert init[i] == dates[i];
          assert HasLink(before, init[i]);
          var k :| 0 <= k < |before| && before[k].date == init[i];
          assert links[k] == before[k];
        }
      }
      forall k | 0 <= k < |links| ensures MarkdownNames(ChildrenOf(nodes, links[k].date)) != [] {
        if k < |before| {
          assert links[k] == before[k];
        }
      }
    }
  }

  /** `link` points at `<stock>/<date>/<name>` where `<name>` is an entry of
      that date folder ending in `.md` and no entry there ending in `.md` has
      a greater name. */
  predicate LatestLink(stock: string, nodes: seq<Node>, link: Link) {
    var entries := ChildrenOf(nodes, link.date);
    exists k :: && 0 <= k < |entries| && EndsWith(entries[k].name, ".md")
                && link.path == stock + "/" + link.date + "/" + entries[k].name
                && forall j :: 0 <= j < |entries| && EndsWith(entries[j].name, ".md") ==>
                                !Less(entries[k].name, entries[j].name)
  }

  /** The link of a date goes to the latest report of its folder. */
  lemma DateLinkIsLatest(stock: string, nodes: seq<Node>, date: string)
    requires MarkdownNames(ChildrenOf(nodes, date)) != []
    ensures LatestLink(stock, nodes, DateLink(stock, date, MarkdownNames(ChildrenOf(nodes, date))))
  {
    var entries := ChildrenOf(nodes, date);
    var reports := MarkdownNames(entries);
    var name := Greatest(reports);
    GreatestIsMaximum(reports);
    MarkdownNamesExact(entries);
    var k :| 0 <= k < |entries| && entries[k].name == name;
    forall j | 0 <= j < |entries| && EndsWith(entries[j].name, ".md") ensures !Less(name, entries[j].name) {
      assert entries[j].name in reports;
      var i :| 0 <= i < |reports| && reports[i] == entries[j].name;
    }
    assert EndsWith(entries[k].name, ".md");
  }

  /** Every link goes to the latest report of its date folder. */
  lemma {:induction false} LinksAreLatest(stock: string, nodes: seq<Node>, dates: seq<string>)
    ensures forall k :: 0 <= k < |DateLinks(stock, nodes, dates)| ==>
              LatestLink(stock, nodes, DateLinks(stock, nodes, dates)[k])
    decreases |dates|
  {
    if dates != [] {
      var init := dates[..|dates| - 1];
      var date := dates[|dates| - 1];
      LinksAreLatest(stock, nodes, init);
      var links := DateLinks(stock, nodes, dates);
      var before := DateLinks(stock, nodes, init);
      assert forall k :: 0 <= k < |before| ==> links[k] == before[k];
      var reports := MarkdownNames(ChildrenOf(nodes, date));
      if reports != [] {
        DateLinkIsLatest(stock, nodes, date);
        assert links[|before|] == DateLink(stock, date, reports);
      }
    }
  }

  /** At most five links per stock, and the chosen dates are newest first. */
  lemma NewestFirst(stock: string, nodes: seq<Node>)
    ensures var top := NewestDates(FolderNames(nodes));
            |DateLinks(stock, nodes, top)| <= 5 && Descending(top)
  {
    SortDescending(FolderNames(nodes));
  }

  /** A date folder that is not among the five chosen is no newer than any
      chosen one. */
  lemma OlderDatesLeftOut(nodes: seq<Node>, d: string)
    requires d in FolderNames(nodes) && d !in NewestDates(FolderNames(nodes))
    ensures forall k :: 0 <= k < |NewestDates(FolderNames(nodes))| ==> !Less(NewestDates(FolderNames(nodes))[k], d)
  {
    var dates := FolderNames(nodes);
    var sorted := SortDesc(dates);
    SortDescending(dates);
    assert d in multiset(dates);
    assert d in multiset(sorted);
    var m :| 0 <= m < |sorted| && sorted[m] == d;
    assert forall k :: 0 <= k < |NewestDates(dates)| ==> NewestDates(dates)[k] == sorted[k];
  }

  /** Every section is the section of a shown folder of the listing. */
  lemma {:induction false} SectionsOfShownFolders(items: seq<Node>)
    ensures forall s :: s in Sections(items) ==> exists k :: 0 <= k < |items| && Shown(items[k]) && s == SectionOf(items[k])
    decreases |items|
  {
    if items != [] {
      var n := |items| - 1;
      var init := items[..n];
      var added := if Shown(items[n]) then [SectionOf(items[n])] else [];
      SectionsOfShownFolders(init);
      assert Sections(items) == Sections(init) + added;
      forall s | s in Sections(items)
        ensures exists k :: 0 <= k < |items| && Shown(items[k]) && s == SectionOf(items[k])
      {
        if s in Sections(init) {
          var k :| 0 <= k < n && Shown(init[k]) && s == SectionOf(init[k]);
          assert items[k] == init[k];
        } else {
          assert Shown(items[n]) && s == SectionOf(items[n]);
        }
      }
    }
  }

  /** Every shown folder of the listing has its section. */
  lemma {:induction false} ShownFoldersHaveSections(items: seq<Node>)
    ensures forall k :: 0 <= k < |items| && Shown(items[k]) ==> SectionOf(items[k]) in Sections(items)
    decreases |items|
  {
    if items != [] {
      var n := |items| - 1;
      var init := items[..n];
      var added := if Shown(items[n]) then [SectionOf(items[n])] else [];
      ShownFoldersHaveSections(init);
      var sections := Sections(items);
      var before := Sections(init);
      assert sections == before + added;
      forall k | 0 <= k < |items| && Shown(items[k])
        ensures SectionOf(items[k]) in sections
      {
        if k < n {
          assert items[k] == init[k];
          assert SectionOf(init[k]) in before;
        } else {
          assert sections[|before|] == SectionOf(items[n]);
        }
      }
    }
  }
}
