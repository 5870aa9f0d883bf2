/**
  The checklist reconciler: the aggregate statistics of renderStats and the
  per-section counts of renderBriefing (app.js), both computed from a document
  and the completion set.
 */
module Reconcile {
  import opened Briefing
  import opened Completion

  /** All items of a document, section after section, in display order. */
  function AllItems(ss: seq<Section>): seq<Item>
  {
    if ss == [] then [] else AllItems(ss[..|ss| - 1]) + ss[|ss| - 1].items
  }

  /** The number of items whose id is in the completion set. */
  function CountDone(items: seq<Item>, checks: set<string>): (n: nat)
    ensures n <= |items|
  {
    if items == [] then 0
    else CountDone(items[..|items| - 1], checks) + (if items[|items| - 1].id in checks then 1 else 0)
  }

  /** The number of items of priority "high". */
  function CountHigh(items: seq<Item>): (n: nat)
    ensures n <= |items|
  {
    if items == [] then 0
    else CountHigh(items[..|items| - 1]) + (if IsHigh(items[|items| - 1]) then 1 else 0)
  }

  datatype Stats = Stats(total: nat, done: nat, high: nat, pending: nat)

  /** NoStats is the "no data" result of a missing document or one without sections. */
  datatype StatsView = NoStats | Shown(stats: Stats)

  predicate HasSections(doc: Option<Document>)
  {
    doc.Some? && doc.value.sections.Some?
  }

  function StatsOf(doc: Option<Document>, checks: set<string>): (r: StatsView)
    ensures r.NoStats? <==> !HasSections(doc)
    ensures r.Shown? ==> r.stats.done + r.stats.pending == r.stats.total
    ensures r.Shown? ==> r.stats.done <= r.stats.total && r.stats.high <= r.stats.total
  {
    if !HasSections(doc) then NoStats
    else
      var items := AllItems(doc.value.sections.value);
      var done := CountDone(items, checks);
      Shown(Stats(|items|, done, CountHigh(items), |items| - done))
  }

  lemma CountDoneSnoc(items: seq<Item>, x: Item, checks: set<string>)
    ensures CountDone(items + [x], checks) == CountDone(items, checks) + (if x.id in checks then 1 else 0)
  {
    assert (items + [x])[..|items|] == items;
  }

  lemma CountHighSnoc(items: seq<Item>, x: Item)
    ensures CountHigh(items + [x]) == CountHigh(items) + (if IsHigh(x) then 1 else 0)
  {
    assert (items + [x])[..|items|] == items;
  }

  lemma AllItemsSnoc(ss: seq<Section>, i: nat)
    requires i < |ss|
    ensures AllItems(ss[..i + 1]) == AllItems(ss[..i]) + ss[i].items
  {
    assert ss[..i + 1][..i] == ss[..i];
  }

  /**
    The counting loops of renderStats, run over the store's current set.
    The store is only read.
   */
  method ComputeStats(doc: Option<Document>, store: CompletionStore) returns (r: StatsView)
    ensures r == StatsOf(doc, store.checks)
  {
    if doc.None? || doc.value.sections.None? {
      return NoStats;
    }
    var ss := doc.value.sections.value;
    var total, done, high := 0, 0, 0;
    var i := 0;
    while i < |ss|
      invariant 0 <= i <= |ss|
      invariant total == |AllItems(ss[..i])|
      invariant done == CountDone(AllItems(ss[..i]), store.checks)
      invariant high == CountHigh(AllItems(ss[..i]))
    {
      var items := ss[i].items;
      var j := 0;
      assert AllItems(ss[..i]) + items[..0] == AllItems(ss[..i]);
      while j < |items|
        invariant 0 <= j <= |items|
        invariant total == |AllItems(ss[..i]) + items[..j]|
        invariant done == CountDone(AllItems(ss[..i]) + items[..j], store.checks)
        invariant high == CountHigh(AllItems(ss[..i]) + items[..j])
      {
        ghost var seen := AllItems(ss[..i]) + items[..j];
        assert AllItems(ss[..i]) + items[..j + 1] == seen + [items[j]];
        CountDoneSnoc(seen, items[j], store.checks);
        CountHighSnoc(seen, items[j]);
        total := total + 1;
        if items[j].id in store.checks {
          done := done + 1;
        }
        if items[j].priority == Some("high") {
          high := high + 1;
        }
        j := j + 1;
      }
      assert items[..|items|] == items;
      AllItemsSnoc(ss, i);
      i := i + 1;
    }
    assert ss[..|ss|] == ss;
    r := Shown(Stats(total, done, high, total - done));
  }

  /** The high-priority count and the total ignore the completion set. */
  lemma HighIgnoresChecks(doc: Option<Document>, c1: set<string>, c2: set<string>)
    requires HasSections(doc)
    ensures StatsOf(doc, c1).stats.high == StatsOf(doc, c2).stats.high
    ensures StatsOf(doc, c1).stats.total == StatsOf(doc, c2).stats.total
  {
  }

  lemma {:induction false} CountDoneMonotone(items: seq<Item>, c1: set<string>, c2: set<string>)
    requires c1 <= c2
    ensures CountDone(items, c1) <= CountDone(items, c2)
  {
    if items != [] {
      CountDoneMonotone(items[..|items| - 1], c1, c2);
    }
  }

  /** Ticking a box never lowers the done count, nor raises the pending count. */
  lemma CheckingNeverLowersDone(doc: Option<Document>, checks: set<string>, id: string)
    requires HasSections(doc)
    ensures StatsOf(doc, checks).stats.done <= StatsOf(doc, Toggled(checks, id, true)).stats.done
    ensures StatsOf(doc, Toggled(checks, id, true)).stats.pending <= StatsOf(doc, checks).stats.pending
  {
    CountDoneMonotone(AllItems(doc.value.sections.value), checks, Toggled(checks, id, true));
  }

  lemma {:induction false} CountDoneAppend(a: seq<Item>, b: seq<Item>, checks: set<string>)
    ensures CountDone(a + b, checks) == CountDone(a, checks) + CountDone(b, checks)
  {
    if b != [] {
      var init := b[..|b| - 1];
      CountDoneAppend(a, init, checks);
      assert a + b == (a + init) + [b[|b| - 1]];
      CountDoneSnoc(a + init, b[|b| - 1], checks);
      assert b == init + [b[|b| - 1]];
      CountDoneSnoc(init, b[|b| - 1], checks);
    } else {
      assert a + b == a;
    }
  }

  // ---- Per-section view of renderBriefing ----

  function ItemViews(items: seq<Item>, checks: set<string>): (vs: seq<ItemView>)
    ensures |vs| == |items|
    ensures forall k :: 0 <= k < |items| ==> vs[k] == ItemViewOf(items[k], checks)
  {
    if items == [] then []
    else ItemViews(items[..|items| - 1], checks) + [ItemViewOf(items[|items| - 1], checks)]
  }

  /** A section header shows "done/count"; an empty section keeps its place with an empty marker. */
  datatype SectionView = SectionView(
    id: string,
    title: string,
    icon: string,
    done: nat,
    count: nat,
    empty: bool,
    items: seq<ItemView>)

  function SectionViewOf(s: Section, checks: set<string>): (v: SectionView)
    ensures v.id == s.id && v.title == s.title && v.icon == SectionIcon(s)
    ensures v.count == |s.items| && v.done <= v.count
    ensures v.done == CountDone(s.items, checks)
    ensures v.empty <==> v.count == 0
    ensures v.empty ==> v.done == 0
    ensures v.items == ItemViews(s.items, checks)
  {
    SectionView(s.id, s.title, SectionIcon(s), CountDone(s.items, checks), |s.items|,
                |s.items| == 0, ItemViews(s.items, checks))
  }

  function CheckedCount(vs: seq<ItemView>): (n: nat)
    ensures n <= |vs|
  {
    if vs == [] then 0
    else CheckedCount(vs[..|vs| - 1]) + (if vs[|vs| - 1].checked then 1 else 0)
  }

  /**
    Counting the ticked checkboxes of a section rendered from the current
    completion set gives the section's done count.
   */
  lemma {:induction false} CheckedBoxesMatchDone(s: Section, checks: set<string>)
    ensures CheckedCount(SectionViewOf(s, checks).items) == SectionViewOf(s, checks).done
  {
    CheckedItemViews(s.items, checks);
  }

  lemma {:induction false} CheckedItemViews(items: seq<Item>, checks: set<string>)
    ensures CheckedCount(ItemViews(items, checks)) == CountDone(items, checks)
  {
    if items != [] {
      var init := items[..|items| - 1];
      CheckedItemViews(init, checks);
      var vs := ItemViews(items, checks);
      assert vs[..|vs| - 1] == ItemViews(init, checks);
    }
  }

  datatype BriefingView = NoBriefing | Sections(views: seq<SectionView>)

  function SectionViews(ss: seq<Section>, checks: set<string>): (vs: seq<SectionView>)
    ensures |vs| == |ss|
    ensures forall k :: 0 <= k < |ss| ==> vs[k] == SectionViewOf(ss[k], checks)
  {
    if ss == [] then []
    else SectionViews(ss[..|ss| - 1], checks) + [SectionViewOf(ss[|ss| - 1], checks)]
  }

  /** Every section of the document is shown, in order, empty ones included. */
  function BriefingViewOf(doc: Option<Document>, checks: set<string>): (r: BriefingView)
    ensures r.NoBriefing? <==> !HasSections(doc)
    ensures r.Sections? ==> r.views == SectionViews(doc.value.sections.value, checks)
  {
    if !HasSections(doc) then NoBriefing else Sections(SectionViews(doc.value.sections.value, checks))
  }

  function SumCounts(vs: seq<SectionView>): nat
  {
    if vs == [] then 0 else SumCounts(vs[..|vs| - 1]) + vs[|vs| - 1].count
  }

  function SumDone(vs: seq<SectionView>): nat
  {
    if vs == [] then 0 else SumDone(vs[..|vs| - 1]) + vs[|vs| - 1].done
  }

  lemma {:induction false} SectionSums(ss: seq<Section>, checks: set<string>)
    ensures SumCounts(SectionViews(ss, checks)) == |AllItems(ss)|
    ensures SumDone(SectionViews(ss, checks)) == CountDone(AllItems(ss), checks)
  {
    if ss != [] {
      var init := ss[..|ss| - 1];
      SectionSums(init, checks);
      var vs := SectionViews(ss, checks);
      assert vs[..|vs| - 1] == SectionViews(init, checks);
      CountDoneAppend(AllItems(init), ss[|ss| - 1].items, checks);
    }
  }

  /**
    The live view and the statistics agree: both report no data together, and
    the section counts sum to the aggregate total and done.
   */
  lemma BriefingAgreesWithStats(doc: Option<Document>, checks: set<string>)
    ensures BriefingViewOf(doc, checks).NoBriefing? <==> StatsOf(doc, checks).NoStats?
    ensures HasSections(doc) ==>
      SumCounts(BriefingViewOf(doc, checks).views) == StatsOf(doc, checks).stats.total &&
      SumDone(BriefingViewOf(doc, checks).views) == StatsOf(doc, checks).stats.done
  {
    if HasSections(doc) {
      SectionSums(doc.value.sections.value, checks);
    }
  }

  /**
    Completion is shared by id across sections, of one day's document or of
    two: once the id of an item of one section is ticked, every item with that
    id, in any section, shows as done.
   */
  lemma SharedIdAcrossDocuments(s1: Section, s2: Section, k1: nat, k2: nat, checks: set<string>)
    requires k1 < |s1.items| && k2 < |s2.items|
    requires s1.items[k1].id == s2.items[k2].id
    ensures SectionViewOf(s1, Toggled(checks, s1.items[k1].id, true)).items[k1].checked
    ensures SectionViewOf(s2, Toggled(checks, s1.items[k1].id, true)).items[k2].checked
  {
  }
}
