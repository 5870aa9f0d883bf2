/**
  The briefing document as the viewer loads it: sections of items, each item
  with the optional fields its JSON may or may not carry, and the decisions the
  item renderer takes about badges and source links (app.js, renderItem).
 */
module Briefing {

  datatype Option<T> = None | Some(value: T)

  /** JavaScript truthiness of an optional string field: present and not empty. */
  predicate Truthy(o: Option<string>)
  {
    o.Some? && o.value != ""
  }

  /** One checklist entry. `kind` is the JSON field `type`. */
  datatype Item = Item(
    id: string,
    summary: string,
    priority: Option<string>,
    kind: Option<string>,
    sourceUrl: Option<string>,
    sourceLabel: Option<string>,
    prep: Option<string>)

  datatype Section = Section(id: string, title: string, icon: Option<string>, items: seq<Item>)

  /** `sections` is None when the loaded JSON has no `sections` field. */
  datatype Document = Document(generatedAt: string, sections: Option<seq<Section>>)

  predicate IsHigh(item: Item)
  {
    item.priority == Some("high")
  }

  /** The label shown for a source link when the item names none. */
  const DefaultSourceLabel := "Source"

  /** The icon used for a section that names none. */
  const DefaultIcon := "info"

  datatype PriorityBadge = HighBadge | LowBadge | NoBadge

  datatype SourceView = SourceLink(url: string, text: string) | SourceText(text: string) | NoSource

  /** What the renderer decides to show for one item, without the markup. */
  datatype ItemView = ItemView(
    id: string,
    checked: bool,
    summary: string,
    priority: PriorityBadge,
    typeBadge: Option<string>,
    source: SourceView,
    prep: Option<string>)

  function PriorityBadgeOf(priority: Option<string>): (b: PriorityBadge)
    ensures b == HighBadge <==> priority == Some("high")
    ensures b == LowBadge <==> priority == Some("low")
  {
    if priority == Some("high") then HighBadge
    else if priority == Some("low") then LowBadge
    else NoBadge
  }

  /** The type badge is shown for a present type other than "status". */
  function TypeBadgeOf(kind: Option<string>): (b: Option<string>)
    ensures b.Some? <==> Truthy(kind) && kind.value != "status"
    ensures b.Some? ==> b == kind
  {
    if Truthy(kind) && kind.value != "status" then kind else None
  }

  /**
    A url gives a link, labelled by the item's label or else "Source"; without
    a url a label alone is shown as plain text.
   */
  function SourceViewOf(url: Option<string>, caption: Option<string>): (v: SourceView)
    ensures v.SourceLink? <==> Truthy(url)
    ensures v.SourceLink? ==> v.url == url.value
    ensures v.SourceLink? ==> v.text == (if Truthy(caption) then caption.value else DefaultSourceLabel)
    ensures v.SourceText? <==> !Truthy(url) && Truthy(caption)
    ensures v.SourceText? ==> v.text == caption.value
    ensures v.NoSource? <==> !Truthy(url) && !Truthy(caption)
  {
    if Truthy(url) then SourceLink(url.value, if Truthy(caption) then caption.value else DefaultSourceLabel)
    else if Truthy(caption) then SourceText(caption.value)
    else NoSource
  }

  /** The checkbox is ticked exactly when the item's id is in the completion set. */
  function ItemViewOf(item: Item, checks: set<string>): (v: ItemView)
    ensures v.id == item.id && v.summary == item.summary
    ensures v.checked <==> item.id in checks
    ensures v.priority == PriorityBadgeOf(item.priority)
    ensures v.typeBadge == TypeBadgeOf(item.kind)
    ensures v.source == SourceViewOf(item.sourceUrl, item.sourceLabel)
    ensures v.prep.Some? <==> Truthy(item.prep)
    ensures v.prep.Some? ==> v.prep == item.prep
  {
    ItemView(
      item.id,
      item.id in checks,
      item.summary,
      PriorityBadgeOf(item.priority),
      TypeBadgeOf(item.kind),
      SourceViewOf(item.sourceUrl, item.sourceLabel),
      if Truthy(item.prep) then item.prep else None)
  }

  /** Completion is tracked by id alone: two items with one id, wherever they come from, agree. */
  lemma SharedIdSharesCompletion(a: Item, b: Item, checks: set<string>)
    requires a.id == b.id
    ensures ItemViewOf(a, checks).checked == ItemViewOf(b, checks).checked
  {
  }

  function SectionIcon(s: Section): (name: string)
    ensures Truthy(s.icon) ==> name == s.icon.value
    ensures !Truthy(s.icon) ==> name == DefaultIcon
  {
    if Truthy(s.icon) then s.icon.value else DefaultIcon
  }
}
