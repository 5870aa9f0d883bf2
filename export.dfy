/**
  The export composer of app.js (generateExport): a plain-text report over the
  index entries between two date keys, with an optional section filter, and a
  checkbox marker per item taken from the completion set at export time.

  The locale date formatter, the generation timestamp and the document loader
  are parameters: `fmt`, `generated` and the map `docs` (a date missing from the
  map is a document that failed to load).
 */
module Export {
  import opened Briefing
  import opened Completion
  import opened Dates
  import Reconcile

  /** The filter value that selects every section. */
  const AllFilter := "all"

  /** NoOutput: the export leaves its panel untouched. Aborted: the export threw. */
  datatype ExportOutcome = NoOutput | Text(text: string) | Aborted

  // ---- Header ----

  function TitleLines(start: string, end: string, fmt: string -> string): string
  {
    "# Impact Review Export\n# " + fmt(start) + " to " + fmt(end) + "\n"
  }

  function FilterLine(filter: string): (line: string)
  {
    if filter != AllFilter then "# Filtered: " + filter + "\n" else ""
  }

  function GeneratedLine(generated: string): string
  {
    "# Generated: " + generated + "\n\n"
  }

  /**
    The header opens with the title line and the range line naming both bounds,
    and closes with the generated line and a blank line.
   */
  function Header(start: string, end: string, filter: string, fmt: string -> string, generated: string): (h: string)
    ensures "# Impact Review Export\n" <= h
    ensures "# Impact Review Export\n# " + fmt(start) + " to " + fmt(end) + "\n" <= h
    ensures |GeneratedLine(generated)| <= |h| && h[|h| - |GeneratedLine(generated)|..] == GeneratedLine(generated)
    ensures h[|h| - 2..] == "\n\n"
  {
    TitleLines(start, end, fmt) + FilterLine(filter) + GeneratedLine(generated)
  }

  /**
    The header of a filtered export is the header of an unfiltered one with the
    line "# Filtered: <filter>" inserted after the range line; with the filter
    "all" the two are the same.
   */
  lemma HeaderFilterLine(start: string, end: string, filter: string, fmt: string -> string, generated: string)
    ensures var plain := Header(start, end, AllFilter, fmt, generated);
            var k := |TitleLines(start, end, fmt)|;
            k <= |plain| &&
            Header(start, end, filter, fmt, generated) ==
              if filter == AllFilter then plain
              else plain[..k] + "# Filtered: " + filter + "\n" + plain[k..]
  {
    var t, g := TitleLines(start, end, fmt), GeneratedLine(generated);
    var plain := Header(start, end, AllFilter, fmt, generated);
    assert plain == t + g;
    assert plain[..|t|] == t;
    assert plain[|t|..] == g;
  }

  // ---- Item lines ----

  function Marker(id: string, checks: set<string>): string
  {
    if id in checks then "[x]" else "[ ]"
  }

  function SourceSuffix(url: Option<string>): string
  {
    if Truthy(url) then " (" + url.value + ")" else ""
  }

  /** `- [x] summary (url)` */
  function ItemLine(item: Item, checks: set<string>): (line: string)
    ensures "- " <= line && line[|line| - 1] == '\n'
    ensures |line| >= 7 + |item.summary|
  {
    "- " + Marker(item.id, checks) + " " + item.summary + SourceSuffix(item.sourceUrl) + "\n"
  }

  /**
    An item line starts with "- [x] " exactly when the item's id is done and
    with "- [ ] " otherwise, carries the summary next, and has the url in
    parentheses after it exactly when the item has a source url.
   */
  lemma ItemLineShape(item: Item, checks: set<string>)
    ensures var line := ItemLine(item, checks);
            var n := 6 + |item.summary|;
            n < |line| && line[|line| - 1] == '\n' &&
            (line[..6] == "- [x] " <==> item.id in checks) &&
            (line[..6] == "- [ ] " <==> item.id !in checks) &&
            line[6..n] == item.summary &&
            (Truthy(item.sourceUrl) <==> |line| > n + 1) &&
            (Truthy(item.sourceUrl) ==> line[n..] == " (" + item.sourceUrl.value + ")\n")
  {
    var line := ItemLine(item, checks);
    var head := "- " + Marker(item.id, checks) + " ";
    var sfx := SourceSuffix(item.sourceUrl);
    ConcatAssoc(head + item.summary, sfx, "\n");
    SliceMiddle(head, item.summary, sfx + "\n");
    assert ("- [x] ")[3] != ("- [ ] ")[3];
  }

  /** The export's marker and the live view's checkbox agree on every item. */
  lemma MarkerMatchesCheckbox(item: Item, checks: set<string>)
    ensures ItemViewOf(item, checks).checked <==> ItemLine(item, checks)[..6] == "- [x] "
  {
    ItemLineShape(item, checks);
  }

  /** The item loop: one line per item, in item order. */
  function ItemsText(items: seq<Item>, checks: set<string>): (r: string)
    ensures r == "" <==> items == []
    ensures |r| >= 7 * |items|
  {
    if items == [] then "" else ItemsText(items[..|items| - 1], checks) + ItemLine(items[|items| - 1], checks)
  }

  // ---- Sections ----

  /** A section appears when the filter admits it and it has at least one item. */
  predicate Included(s: Section, filter: string)
    ensures s.items == [] ==> !Included(s, filter)
    ensures filter == AllFilter ==> (Included(s, filter) <==> s.items != [])
    ensures Included(s, filter) && filter != AllFilter ==> s.id == filter
    ensures filter != AllFilter ==> (Included(s, filter) <==> s.id == filter && s.items != [])
  {
    (filter == AllFilter || s.id == filter) && |s.items| != 0
  }

  function SectionText(s: Section, checks: set<string>): string
  {
    "### " + s.title + "\n" + ItemsText(s.items, checks) + "\n"
  }

  /** What one section contributes to the report. */
  function SectionPiece(s: Section, filter: string, checks: set<string>): string
  {
    if Included(s, filter) then SectionText(s, checks) else ""
  }

  /** The sections write nothing exactly when none of them is admitted. */
  function SectionsText(ss: seq<Section>, filter: string, checks: set<string>): (r: string)
    ensures r == "" <==> forall k :: 0 <= k < |ss| ==> !Included(ss[k], filter)
  {
    if ss == [] then "" else SectionsText(ss[..|ss| - 1], filter, checks) + SectionPiece(ss[|ss| - 1], filter, checks)
  }

  // ---- Dates ----

  predicate Loaded(date: string, docs: map<string, Document>)
  {
    date in docs && docs[date].sections.Some?
  }

  function DateHeading(date: string, fmt: string -> string): string
  {
    "## " + fmt(date) + "\n\n"
  }

  /** A date whose document is missing, or has no sections, contributes nothing. */
  function DateText(date: string, docs: map<string, Document>, filter: string, checks: set<string>,
                    fmt: string -> string): (r: string)
    ensures r == "" <==> !Loaded(date, docs)
    ensures Loaded(date, docs) ==> DateHeading(date, fmt) <= r
  {
    if Loaded(date, docs) then DateHeading(date, fmt) + SectionsText(docs[date].sections.value, filter, checks)
    else ""
  }

  /** The dates write nothing exactly when none of their documents loaded with sections. */
  function DatesText(ds: seq<string>, docs: map<string, Document>, filter: string, checks: set<string>,
                     fmt: string -> string): (r: string)
    ensures r == "" <==> forall k :: 0 <= k < |ds| ==> !Loaded(ds[k], docs)
  {
    if ds == [] then ""
    else DatesText(ds[..|ds| - 1], docs, filter, checks, fmt) + DateText(ds[|ds| - 1], docs, filter, checks, fmt)
  }

  /** The report: header, then each selected date in index order. */
  function Export(start: string, end: string, filter: string, index: seq<string>, docs: map<string, Document>,
                  fmt: string -> string, generated: string, checks: set<string>): (r: ExportOutcome)
    ensures r.NoOutput? <==> start == [] || end == []
    ensures !r.Aborted?
  {
    if start == [] || end == [] then NoOutput
    else Text(Header(start, end, filter, fmt, generated)
              + DatesText(SelectDates(index, start, end), docs, filter, checks, fmt))
  }

  // ---- Order and omission ----

  lemma ConcatAssoc<T>(x: seq<T>, y: seq<T>, z: seq<T>)
    ensures (x + y) + z == x + (y + z)
  {
  }

  lemma FullSlice<T>(s: seq<T>)
    ensures s[..|s|] == s
  {
  }

  lemma ConcatEmpty<T>(s: seq<T>)
    ensures s + [] == s && [] + s == s
  {
  }

  lemma SplitPair<T>(x: T, y: T)
    ensures [x, y] == [x] + [y]
  {
  }

  lemma SplitTriple<T>(x: T, y: T, z: T)
    ensures [x, y, z] == [x] + [y, z] && [y, z] == [y] + [z]
  {
  }

  lemma SliceMiddle<T>(p: seq<T>, x: seq<T>, q: seq<T>)
    ensures (p + x + q)[..|p|] == p
    ensures (p + x + q)[|p|..|p| + |x|] == x
    ensures (p + x + q)[|p| + |x|..] == q
  {
  }

  lemma SplitLast<T>(a: seq<T>, b: seq<T>)
    requires b != []
    ensures (a + b)[..|a + b| - 1] == a + b[..|b| - 1]
    ensures (a + b)[|a + b| - 1] == b[|b| - 1]
  {
  }

  lemma {:induction false} ItemsTextAppend(a: seq<Item>, b: seq<Item>, checks: set<string>)
    ensures ItemsText(a + b, checks) == ItemsText(a, checks) + ItemsText(b, checks)
  {
    if b == [] {
      assert a + b == a;
    } else {
      var init, last := b[..|b| - 1], b[|b| - 1];
      SplitLast(a, b);
      ItemsTextAppend(a, init, checks);
      var x, y, z := ItemsText(a, checks), ItemsText(init, checks), ItemLine(last, checks);
      assert ItemsText(a + b, checks) == (x + y) + z;
      assert ItemsText(b, checks) == y + z;
      ConcatAssoc(x, y, z);
    }
  }

  /** Item lines follow item order: the lines of a section are its items' lines in turn. */
  lemma ItemsTextCons(x: Item, rest: seq<Item>, checks: set<string>)
    ensures ItemsText([x] + rest, checks) == ItemLine(x, checks) + ItemsText(rest, checks)
  {
    ItemsTextAppend([x], rest, checks);
    assert [x][..0] == [];
    ConcatEmpty(ItemLine(x, checks));
  }

  lemma {:induction false} SectionsTextAppend(a: seq<Section>, b: seq<Section>, filter: string, checks: set<string>)
    ensures SectionsText(a + b, filter, checks) == SectionsText(a, filter, checks) + SectionsText(b, filter, checks)
  {
    if b == [] {
      assert a + b == a;
    } else {
      var init, last := b[..|b| - 1], b[|b| - 1];
      SplitLast(a, b);
      SectionsTextAppend(a, init, filter, checks);
      var x, y := SectionsText(a, filter, checks), SectionsText(init, filter, checks);
      var z := SectionPiece(last, filter, checks);
      assert SectionsText(a + b, filter, checks) == (x + y) + z;
      assert SectionsText(b, filter, checks) == y + z;
      ConcatAssoc(x, y, z);
    }
  }

  lemma SectionsTextSingle(s: Section, filter: string, checks: set<string>)
    ensures SectionsText([s], filter, checks) == if Included(s, filter) then SectionText(s, checks) else ""
  {
    assert [s][..0] == [];
  }

  /** A filter naming no section of the list writes no section. */
  lemma UnmatchedFilterWritesNoSections(ss: seq<Section>, filter: string, checks: set<string>)
    requires filter != AllFilter
    requires forall s :: s in ss ==> s.id != filter
    ensures SectionsText(ss, filter, checks) == ""
  {
    forall k | 0 <= k < |ss| ensures !Included(ss[k], filter) {
      assert ss[k] in ss;
    }
  }

  /**
    The live view keeps an empty section, with a 0/0 count and the empty
    marker, while the export leaves it out whatever the filter.
   */
  lemma EmptySectionViewVersusExport(s: Section, filter: string, checks: set<string>)
    requires s.items == []
    ensures Reconcile.SectionViewOf(s, checks).empty
    ensures Reconcile.SectionViewOf(s, checks).done == 0 && Reconcile.SectionViewOf(s, checks).count == 0
    ensures SectionsText([s], filter, checks) == ""
  {
    SectionsTextSingle(s, filter, checks);
  }

  lemma {:induction false} DatesTextAppend(a: seq<string>, b: seq<string>, docs: map<string, Document>,
                                           filter: string, checks: set<string>, fmt: string -> string)
    ensures DatesText(a + b, docs, filter, checks, fmt)
         == DatesText(a, docs, filter, checks, fmt) + DatesText(b, docs, filter, checks, fmt)
  {
    if b == [] {
      assert a + b == a;
    } else {
      var init, last := b[..|b| - 1], b[|b| - 1];
      SplitLast(a, b);
      DatesTextAppend(a, init, docs, filter, checks, fmt);
      var x, y := DatesText(a, docs, filter, checks, fmt), DatesText(init, docs, filter, checks, fmt);
      var z := DateText(last, docs, filter, checks, fmt);
      assert DatesText(a + b, docs, filter, checks, fmt) == (x + y) + z;
      assert DatesText(b, docs, filter, checks, fmt) == y + z;
      ConcatAssoc(x, y, z);
    }
  }

  /**
    A date whose document failed to load (or has no sections) contributes
    nothing, and the dates after it are written as if it were not there.
   */
  lemma UnloadedDateSkipped(a: seq<string>, d: string, b: seq<string>, docs: map<string, Document>,
                            filter: string, checks: set<string>, fmt: string -> string)
    requires !Loaded(d, docs)
    ensures DatesText(a + [d] + b, docs, filter, checks, fmt)
         == DatesText(a, docs, filter, checks, fmt) + DatesText(b, docs, filter, checks, fmt)
  {
    DatesTextAppend(a + [d], b, docs, filter, checks, fmt);
    DatesTextAppend(a, [d], docs, filter, checks, fmt);
    DatesTextSingle(d, docs, filter, checks, fmt);
    ConcatEmpty(DatesText(a, docs, filter, checks, fmt));
  }

  lemma DatesTextSingle(d: string, docs: map<string, Document>, filter: string, checks: set<string>,
                        fmt: string -> string)
    ensures DatesText([d], docs, filter, checks, fmt) == DateText(d, docs, filter, checks, fmt)
  {
    assert [d][..0] == [];
    ConcatEmpty(DateText(d, docs, filter, checks, fmt));
  }

  /** With start after end the report is the header alone. */
  lemma EmptyRangeHeaderOnly(start: string, end: string, filter: string, index: seq<string>,
                             docs: map<string, Document>, fmt: string -> string, generated: string,
                             checks: set<string>)
    requires start != [] && end != []
    requires !LexLe(start, end)
    ensures Export(start, end, filter, index, docs, fmt, generated, checks)
         == Text(Header(start, end, filter, fmt, generated))
  {
    EmptyRangeSelectsNothing(index, start, end);
  }

  function Headings(ds: seq<string>, docs: map<string, Document>, fmt: string -> string): string
  {
    if ds == [] then ""
    else Headings(ds[..|ds| - 1], docs, fmt) + (if Loaded(ds[|ds| - 1], docs) then DateHeading(ds[|ds| - 1], fmt) else "")
  }

  predicate NoSectionNamed(docs: map<string, Document>, date: string, filter: string)
  {
    Loaded(date, docs) ==> forall s :: s in docs[date].sections.value ==> s.id != filter
  }

  /** A filter matching no section of any selected document leaves date headings only. */
  lemma {:induction false} UnmatchedFilterHeadingsOnly(ds: seq<string>, docs: map<string, Document>, filter: string,
                                                       checks: set<string>, fmt: string -> string)
    requires filter != AllFilter
    requires forall k :: 0 <= k < |ds| ==> NoSectionNamed(docs, ds[k], filter)
    ensures DatesText(ds, docs, filter, checks, fmt) == Headings(ds, docs, fmt)
  {
    if ds != [] {
      var last := ds[|ds| - 1];
      UnmatchedFilterHeadingsOnly(ds[..|ds| - 1], docs, filter, checks, fmt);
      assert NoSectionNamed(docs, last, filter);
      if Loaded(last, docs) {
        UnmatchedFilterWritesNoSections(docs[last].sections.value, filter, checks);
      }
    }
  }

  /** The first three days of 2024 are ordered as their keys. */
  lemma JanuaryKeys()
    ensures LexLe("2024-01-01", "2024-01-02") && !LexLe("2024-01-03", "2024-01-02")
    ensures LexLe("2024-01-01", "2024-01-01") && LexLe("2024-01-02", "2024-01-02")
  {
    var p := "2024-01-0";
    assert "2024-01-01" == p + "1";
    assert "2024-01-02" == p + "2";
    assert "2024-01-03" == p + "3";
    LexLeCommonPrefix(p, "1", "2");
    LexLeCommonPrefix(p, "3", "2");
    LexLeReflexive("2024-01-01");
    LexLeReflexive("2024-01-02");
  }

  /** Given the three-day index, the range from day 1 to day 2 selects exactly days 1 and 2. */
  lemma ThreeDayExample()
    ensures SelectDates(["2024-01-01", "2024-01-02", "2024-01-03"], "2024-01-01", "2024-01-02")
         == ["2024-01-01", "2024-01-02"]
  {
    var d1, d2, d3 := "2024-01-01", "2024-01-02", "2024-01-03";
    JanuaryKeys();
    SelectDatesSingle(d1, d1, d2);
    SelectDatesSingle(d2, d1, d2);
    SelectDatesSingle(d3, d1, d2);
    SelectDatesAppend([d2], [d3], d1, d2);
    SelectDatesAppend([d1], [d2, d3], d1, d2);
    SplitTriple(d1, d2, d3);
  }

  // ---- The composer as the source runs it ----

  lemma ItemsTextSnoc(items: seq<Item>, j: nat, checks: set<string>)
    requires j < |items|
    ensures ItemsText(items[..j + 1], checks) == ItemsText(items[..j], checks) + ItemLine(items[j], checks)
  {
    assert items[..j + 1][..j] == items[..j];
  }

  lemma SectionsTextSnoc(ss: seq<Section>, k: nat, filter: string, checks: set<string>)
    requires k < |ss|
    ensures SectionsText(ss[..k + 1], filter, checks)
         == SectionsText(ss[..k], filter, checks) + (if Included(ss[k], filter) then SectionText(ss[k], checks) else "")
  {
    assert ss[..k + 1][..k] == ss[..k];
  }

  lemma DatesTextSnoc(ds: seq<string>, i: nat, docs: map<string, Document>, filter: string,
                      checks: set<string>, fmt: string -> string)
    requires i < |ds|
    ensures DatesText(ds[..i + 1], docs, filter, checks, fmt)
         == DatesText(ds[..i], docs, filter, checks, fmt) + DateText(ds[i], docs, filter, checks, fmt)
  {
    assert ds[..i + 1][..i] == ds[..i];
  }

  /** The innermost loop of generateExport: one line per item, in item order. */
  method AppendItemLines(output: string, items: seq<Item>, store: CompletionStore) returns (out: string)
    ensures out == output + ItemsText(items, store.checks)
  {
    ghost var checks := store.checks;
    out := output;
    assert items[..0] == [];
    ConcatEmpty(output);
    for j := 0 to |items|
      invariant out == output + ItemsText(items[..j], checks)
    {
      var item := items[j];
      ItemsTextSnoc(items, j, checks);
      var check := if item.id in store.checks then "[x]" else "[ ]";
      var source := if Truthy(item.sourceUrl) then " (" + item.sourceUrl.value + ")" else "";
      var line := "- " + check + " " + item.summary + source + "\n";
      assert line == ItemLine(item, checks);
      ConcatAssoc(output, ItemsText(items[..j], checks), line);
      out := out + line;
    }
    FullSlice(items);
  }

  /** The section loop of generateExport, skipping filtered-out and empty sections. */
  method AppendSections(output: string, ss: seq<Section>, filter: string, store: CompletionStore)
    returns (out: string)
    ensures out == output + SectionsText(ss, filter, store.checks)
  {
    ghost var checks := store.checks;
    out := output;
    assert ss[..0] == [];
    ConcatEmpty(output);
    for k := 0 to |ss|
      invariant out == output + SectionsText(ss[..k], filter, checks)
    {
      var section := ss[k];
      SectionsTextSnoc(ss, k, filter, checks);
      ghost var soFar := SectionsText(ss[..k], filter, checks);
      if filter != AllFilter && section.id != filter {
        ConcatEmpty(soFar);
        continue;
      }
      if |section.items| == 0 {
        ConcatEmpty(soFar);
        continue;
      }
      ghost var beforeSection := out;
      var head := "### " + section.title + "\n";
      out := out + head;
      out := AppendItemLines(out, section.items, store);
      out := out + "\n";
      ConcatAssoc(beforeSection, head, ItemsText(section.items, checks));
      ConcatAssoc(beforeSection, head + ItemsText(section.items, checks), "\n");
      assert out == beforeSection + SectionPiece(section, filter, checks);
      ConcatAssoc(output, soFar, SectionPiece(section, filter, checks));
    }
    FullSlice(ss);
  }

  /** The header lines of generateExport: range, the filter unless it is "all", generation time. */
  method ExportHeader(start: string, end: string, filter: string, fmt: string -> string, generated: string)
    returns (output: string)
    ensures output == Header(start, end, filter, fmt, generated)
  {
    output := "# Impact Review Export\n# " + fmt(start) + " to " + fmt(end) + "\n";
    if filter != AllFilter {
      output := output + ("# Filtered: " + filter + "\n");
    }
    output := output + ("# Generated: " + generated + "\n\n");
  }

  /** The date loop of generateExport: dates whose document did not load are skipped. */
  method AppendDates(output: string, dates: seq<string>, docs: map<string, Document>, filter: string,
                     fmt: string -> string, store: CompletionStore)
    returns (out: string)
    ensures out == output + DatesText(dates, docs, filter, store.checks, fmt)
  {
    ghost var checks := store.checks;
    out := output;
    assert dates[..0] == [];
    ConcatEmpty(output);
    for i := 0 to |dates|
      invariant out == output + DatesText(dates[..i], docs, filter, checks, fmt)
    {
      var date := dates[i];
      DatesTextSnoc(dates, i, docs, filter, checks, fmt);
      ghost var soFar := DatesText(dates[..i], docs, filter, checks, fmt);
      if date !in docs {
        ConcatEmpty(soFar);
        continue;
      }
      var data := docs[date];
      if data.sections.None? {
        ConcatEmpty(soFar);
        continue;
      }
      ghost var beforeDate := out;
      var heading := "## " + fmt(date) + "\n\n";
      out := out + heading;
      out := AppendSections(out, data.sections.value, filter, store);
      ConcatAssoc(beforeDate, heading, SectionsText(data.sections.value, filter, checks));
      ConcatAssoc(output, soFar, DateText(date, docs, filter, checks, fmt));
    }
    FullSlice(dates);
  }

  /**
    generateExport: nothing when either bound is empty; otherwise the header,
    then for each selected date whose document loaded, its heading and its
    sections. It reads the completion store and changes nothing.
   */
  method ComposeExport(start: string, end: string, filter: string, index: seq<string>,
                       docs: map<string, Document>, fmt: string -> string, generated: string,
                       store: CompletionStore)
    returns (out: ExportOutcome)
    ensures out == Export(start, end, filter, index, docs, fmt, generated, store.checks)
  {
    if start == "" || end == "" {
      return NoOutput;
    }
    var dates := SelectDates(index, start, end);
    var output := ExportHeader(start, end, filter, fmt, generated);
    output := AppendDates(output, dates, docs, filter, fmt, store);
    return Text(output);
  }

  // ---- Finding: a loaded document without sections aborts the export ----

  /** As written, one date fails exactly when its document has no sections, and otherwise writes the corrected text. */
  function DateTextAsWritten(date: string, docs: map<string, Document>, filter: string, checks: set<string>,
                             fmt: string -> string): (r: Option<string>)
    ensures r.None? <==> Sectionless(date, docs)
    ensures r.Some? ==> r.value == DateText(date, docs, filter, checks, fmt)
  {
    if date !in docs then Some("")
    else if docs[date].sections.None? then None
    else Some(DateHeading(date, fmt) + SectionsText(docs[date].sections.value, filter, checks))
  }

  /** As written, the date loop fails only on a sectionless document, and what it writes is the corrected text. */
  function DatesTextAsWritten(ds: seq<string>, docs: map<string, Document>, filter: string, checks: set<string>,
                              fmt: string -> string): (r: Option<string>)
    ensures r.None? ==> exists k :: 0 <= k < |ds| && Sectionless(ds[k], docs)
    ensures r.Some? ==> r.value == DatesText(ds, docs, filter, checks, fmt)
  {
    if ds == [] then Some("")
    else
      match DatesTextAsWritten(ds[..|ds| - 1], docs, filter, checks, fmt)
      case None => None
      case Some(prefix) =>
        match DateTextAsWritten(ds[|ds| - 1], docs, filter, checks, fmt)
        case None => None
        case Some(block) => Some(prefix + block)
  }

  function ExportAsWritten(start: string, end: string, filter: string, index: seq<string>,
                           docs: map<string, Document>, fmt: string -> string, generated: string,
                           checks: set<string>): (r: ExportOutcome)
    ensures r.NoOutput? <==> start == [] || end == []
    ensures r.Aborted? ==> exists d :: d in SelectDates(index, start, end) && Sectionless(d, docs)
    ensures r.Text? ==> r == Export(start, end, filter, index, docs, fmt, generated, checks)
  {
    if start == [] || end == [] then NoOutput
    else match DatesTextAsWritten(SelectDates(index, start, end), docs, filter, checks, fmt)
      case None => Aborted
      case Some(body) => Text(Header(start, end, filter, fmt, generated) + body)
  }

  predicate Sectionless(date: string, docs: map<string, Document>)
  {
    date in docs && docs[date].sections.None?
  }

  lemma {:induction false} SectionlessAborts(ds: seq<string>, k: nat, docs: map<string, Document>, filter: string,
                                             checks: set<string>, fmt: string -> string)
    requires k < |ds| && Sectionless(ds[k], docs)
    ensures DatesTextAsWritten(ds, docs, filter, checks, fmt).None?
  {
    if k < |ds| - 1 {
      SectionlessAborts(ds[..|ds| - 1], k, docs, filter, checks, fmt);
    }
  }

  /** As written, one selected date with a sectionless document aborts the whole export. */
  lemma AsWrittenAbortsOnSectionless(start: string, end: string, filter: string, index: seq<string>,
                                     docs: map<string, Document>, fmt: string -> string, generated: string,
                                     checks: set<string>, date: string)
    requires start != [] && end != []
    requires date in index && InRange(date, start, end) && Sectionless(date, docs)
    ensures ExportAsWritten(start, end, filter, index, docs, fmt, generated, checks) == Aborted
  {
    var ds := SelectDates(index, start, end);
    assert date in ds;
    var k :| 0 <= k < |ds| && ds[k] == date;
    SectionlessAborts(ds, k, docs, filter, checks, fmt);
  }

  lemma {:induction false} AsWrittenAgreesDates(ds: seq<string>, docs: map<string, Document>, filter: string,
                                                checks: set<string>, fmt: string -> string)
    requires forall k :: 0 <= k < |ds| ==> !Sectionless(ds[k], docs)
    ensures DatesTextAsWritten(ds, docs, filter, checks, fmt) == Some(DatesText(ds, docs, filter, checks, fmt))
  {
    if ds != [] {
      AsWrittenAgreesDates(ds[..|ds| - 1], docs, filter, checks, fmt);
      assert !Sectionless(ds[|ds| - 1], docs);
    }
  }

  /** The correction changes nothing unless a selected document lacks its sections. */
  lemma AsWrittenAgreesWhenSectionsPresent(start: string, end: string, filter: string, index: seq<string>,
                                           docs: map<string, Document>, fmt: string -> string, generated: string,
                                           checks: set<string>)
    requires forall d :: d in index && InRange(d, start, end) ==> !Sectionless(d, docs)
    ensures ExportAsWritten(start, end, filter, index, docs, fmt, generated, checks)
         == Export(start, end, filter, index, docs, fmt, generated, checks)
  {
    var ds := SelectDates(index, start, end);
    forall k | 0 <= k < |ds| ensures !Sectionless(ds[k], docs) {
      assert ds[k] in ds;
    }
    AsWrittenAgreesDates(ds, docs, filter, checks, fmt);
  }

  /** A concrete input: two selected days, the first with a document that has no sections. */
  function WitnessTasks(): Section
  {
    Section("tasks", "Tasks", None, [Item("t1", "Reply to Ann", None, None, None, None, None)])
  }

  function WitnessDocs(): map<string, Document>
  {
    map["2024-01-01" := Document("", None), "2024-01-02" := Document("", Some([WitnessTasks()]))]
  }

  lemma WitnessSelectsBoth()
    ensures SelectDates(["2024-01-01", "2024-01-02"], "2024-01-01", "2024-01-02") == ["2024-01-01", "2024-01-02"]
  {
    var d1, d2 := "2024-01-01", "2024-01-02";
    JanuaryKeys();
    SelectDatesSingle(d1, d1, d2);
    SelectDatesSingle(d2, d1, d2);
    SelectDatesAppend([d1], [d2], d1, d2);
    SplitPair(d1, d2);
  }

  /** As written, the export of the witness throws. */
  lemma WitnessAbortsAsWritten(fmt: string -> string, generated: string, checks: set<string>)
    ensures ExportAsWritten("2024-01-01", "2024-01-02", AllFilter, ["2024-01-01", "2024-01-02"], WitnessDocs(),
                            fmt, generated, checks) == Aborted
  {
    JanuaryKeys();
    AsWrittenAbortsOnSectionless("2024-01-01", "2024-01-02", AllFilter, ["2024-01-01", "2024-01-02"], WitnessDocs(),
                                 fmt, generated, checks, "2024-01-01");
  }

  /** The witness's second day writes its heading and its one section. */
  lemma WitnessSecondDay(fmt: string -> string, checks: set<string>)
    ensures DateText("2024-01-02", WitnessDocs(), AllFilter, checks, fmt)
         == DateHeading("2024-01-02", fmt) + SectionText(WitnessTasks(), checks)
  {
    var docs := WitnessDocs();
    assert docs["2024-01-02"].sections == Some([WitnessTasks()]);
    SectionsTextSingle(WitnessTasks(), AllFilter, checks);
  }

  /** The witness's dates: the first, sectionless, writes nothing; the second its heading and section. */
  lemma WitnessDatesText(fmt: string -> string, checks: set<string>)
    ensures DatesText(["2024-01-01", "2024-01-02"], WitnessDocs(), AllFilter, checks, fmt)
         == DateHeading("2024-01-02", fmt) + SectionText(WitnessTasks(), checks)
  {
    var d1, d2 := "2024-01-01", "2024-01-02";
    var docs := WitnessDocs();
    assert docs[d1].sections == None;
    UnloadedDateSkipped([], d1, [d2], docs, AllFilter, checks, fmt);
    assert [] + [d1] + [d2] == [d1, d2];
    DatesTextSingle(d2, docs, AllFilter, checks, fmt);
    WitnessSecondDay(fmt, checks);
    ConcatEmpty(DatesText([d2], docs, AllFilter, checks, fmt));
  }

  /** Corrected, the export of the witness skips the first day and still reports the second. */
  lemma WitnessReportsSecondDay(fmt: string -> string, generated: string, checks: set<string>)
    ensures Export("2024-01-01", "2024-01-02", AllFilter, ["2024-01-01", "2024-01-02"], WitnessDocs(),
                   fmt, generated, checks)
         == Text(Header("2024-01-01", "2024-01-02", AllFilter, fmt, generated)
                 + DateHeading("2024-01-02", fmt) + SectionText(WitnessTasks(), checks))
  {
    var d1, d2 := "2024-01-01", "2024-01-02";
    WitnessSelectsBoth();
    WitnessDatesText(fmt, checks);
    ConcatAssoc(Header(d1, d2, AllFilter, fmt, generated), DateHeading(d2, fmt), SectionText(WitnessTasks(), checks));
  }
}
