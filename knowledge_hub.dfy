/** frontend/src/pages/KnowledgeHub.tsx: the learning-resource catalogue,
    its category filter, the category names shown on each card, and which
    cards render as links. Thumbnails and icons are left out. */
module KnowledgeHub {
  import opened Js

  datatype ContentType = Article | Video | Guide

  datatype Category = Category(id: string, name: string)

  datatype ContentItem = ContentItem(
    id: string, title: string, kind: ContentType, category: string,
    duration: Option<string>, featured: bool, link: Option<string>)

  const AllCategories := "all"

  const Categories: seq<Category> := [
    Category("all", "All"), Category("basics", "Basics"), Category("techniques", "Techniques"),
    Category("maintenance", "Maintenance"), Category("benefits", "Benefits"),
    Category("case-studies", "Case Studies")
  ]

  const Content: seq<ContentItem> := [
    ContentItem("1", "Introduction to Rainwater Harvesting", Article, "basics", None, true,
      Some("https://savetherivers.in/rainwater-harvesting/")),
    ContentItem("2", "How to Build a Recharge Pit", Video, "techniques", Some("12:45"), false,
      Some("https://m.youtube.com/watch?v=FAKCczVl5ls")),
    ContentItem("3", "Maintenance Guide for Storage Tanks", Guide, "maintenance", None, false,
      Some("https://www.petrosync.com/blog/storage-tank-maintenance/")),
    ContentItem("4", "Economic Benefits of Rainwater Harvesting", Article, "benefits", None, false,
      Some("https://nexteel.in/the-economics-behind-rainwater-harvesting-how-worthwhile-is-the-investment/")),
    ContentItem("5", "Success Story: Community Harvesting Project", Article, "case-studies", None, false,
      Some("https://neer.co.in/rainwater-harvesting-success-stories-from-around-the-globe/")),
    ContentItem("6", "DIY Filtration Systems", Video, "techniques", Some("08:32"), false,
      Some("https://youtu.be/JPZHTBHOUz4?si=kCeIJtk8YDwfiefu"))
  ]

  /** `items.filter(item => item.category === category)`. */
  function InCategory(items: seq<ContentItem>, category: string): (r: seq<ContentItem>)
    ensures |r| <= |items|
    ensures forall i :: 0 <= i < |r| ==> r[i].category == category
    ensures forall x :: x in r <==> x in items && x.category == category
  {
    if items == [] then []
    else
      var rest := InCategory(items[1..], category);
      assert forall x :: x in items <==> x == items[0] || x in items[1..];
      (if items[0].category == category then [items[0]] else []) + rest
  }

  /** Filtering keeps the catalogue's order: it distributes over
      concatenation. */
  lemma {:induction false} InCategoryAppend(a: seq<ContentItem>, b: seq<ContentItem>, category: string)
    ensures InCategory(a + b, category) == InCategory(a, category) + InCategory(b, category)
  {
    if a == [] {
      assert a + b == b;
    } else {
      assert (a + b)[1..] == a[1..] + b;
      InCategoryAppend(a[1..], b, category);
    }
  }

  /** `filteredContent`: everything for "all", the category's items otherwise. */
  function FilteredContent(items: seq<ContentItem>, active: string): (r: seq<ContentItem>)
    ensures active == AllCategories ==> r == items
    ensures active != AllCategories ==> r == InCategory(items, active)
  {
    if active == AllCategories then items else InCategory(items, active)
  }

  /** A category no item belongs to shows nothing. */
  lemma {:induction false} UnusedCategoryEmpty(items: seq<ContentItem>, category: string)
    requires category != AllCategories
    requires forall i :: 0 <= i < |items| ==> items[i].category != category
    ensures FilteredContent(items, category) == []
  {
    if items != [] {
      assert forall i :: 0 <= i < |items| - 1 ==> items[1..][i] == items[i + 1];
      UnusedCategoryEmpty(items[1..], category);
    }
  }

  /** Every item is listed under its own category. */
  lemma ListedUnderOwnCategory(items: seq<ContentItem>, item: ContentItem)
    requires item in items
    ensures item in FilteredContent(items, item.category)
  {
  }

  /** `categories.find(c => c.id === id)?.name`. */
  function CategoryName(cats: seq<Category>, id: string): (r: Option<string>)
    ensures r.None? <==> forall i :: 0 <= i < |cats| ==> cats[i].id != id
    ensures r.Some? ==> exists i :: (0 <= i < |cats| && cats[i].id == id && cats[i].name == r.value &&
      forall j :: 0 <= j < i ==> cats[j].id != id)
  {
    if cats == [] then None
    else if cats[0].id == id then Some(cats[0].name)
    else
      var r := CategoryName(cats[1..], id);
      assert forall i :: 1 <= i < |cats| ==> cats[i] == cats[1..][i - 1];
      if r.Some? then
        var k :| 0 <= k < |cats| - 1 && cats[1..][k].id == id && cats[1..][k].name == r.value &&
          forall j :: 0 <= j < k ==> cats[1..][j].id != id;
        assert cats[k + 1].id == id && cats[k + 1].name == r.value;
        r
      else r
  }

  /** Every card of the catalogue shows a category name. */
  lemma ContentCategoriesNamed()
    ensures forall item :: item in Content ==> CategoryName(Categories, item.category).Some?
  {
    assert Categories[1].id == "basics" && Categories[2].id == "techniques" && Categories[3].id == "maintenance";
    assert Categories[4].id == "benefits" && Categories[5].id == "case-studies";
  }

  /** `item.link ? <a …> : <div …>`. */
  predicate RendersAsLink(item: ContentItem)
    ensures RendersAsLink(item) <==> item.link.Some? && item.link.value != ""
  {
    Truthy(if item.link.Some? then Some(JStr(item.link.value)) else None)
  }

  class KnowledgeHubPage {
    var activeCategory: string

    constructor ()
      ensures activeCategory == AllCategories
    {
      activeCategory := AllCategories;
    }

    method SetActiveCategory(id: string)
      modifies this
      ensures activeCategory == id
    {
      activeCategory := id;
    }

    /** The cards on screen: the whole catalogue for "all", otherwise
        exactly the catalogue's items of the active category. */
    function Shown(): (r: seq<ContentItem>)
      reads this
      ensures activeCategory == AllCategories ==> r == Content
      ensures activeCategory != AllCategories ==>
        forall item :: item in r <==> item in Content && item.category == activeCategory
    {
      FilteredContent(Content, activeCategory)
    }
  }
}
