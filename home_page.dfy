/** The landing page's menu preview: three tabs, each showing the first three catalogue items
    of its category, fetched once when the page mounts. */
module HomePage {
  import opened Entities
  import opened Web

  /** The `activeCategory` values. */
  datatype Tab = Food | Drinks | Wines {
    function Name(): string {
      match this
      case Food => "food"
      case Drinks => "drinks"
      case Wines => "wines"
    }
  }

  /** The category each tab's section filters on. */
  function SectionCategory(tab: Tab): string {
    match tab
    case Food => "food"
    case Drinks => "drink"
    case Wines => "wine"
  }

  /** The category the "No items available" check filters on, chosen from the tab's name;
      it always agrees with the section's own filter. */
  function EmptyCheckCategory(tab: Tab): (c: string)
    ensures c == SectionCategory(tab)
  {
    if tab.Name() == "drinks" then "drink" else if tab.Name() == "wines" then "wine" else "food"
  }

  /** `items.filter((item) => item.category === c)`. */
  function Filter(items: seq<MenuItem>, c: string): (r: seq<MenuItem>)
    ensures |r| <= |items|
    ensures forall i :: 0 <= i < |r| ==> r[i].category == c
    ensures forall x :: x in r <==> x in items && x.category == c
  {
    if items == [] then []
    else Filter(items[..|items| - 1], c) + (if items[|items| - 1].category == c then [items[|items| - 1]] else [])
  }

  /** Filtering keeps the order: it distributes over concatenation. */
  lemma {:induction false} FilterAppend(a: seq<MenuItem>, b: seq<MenuItem>, c: string)
    ensures Filter(a + b, c) == Filter(a, c) + Filter(b, c)
  {
    if b == [] {
      assert a + b == a;
    } else {
      assert (a + b)[..|a + b| - 1] == a + b[..|b| - 1];
      FilterAppend(a, b[..|b| - 1], c);
    }
  }

  /** The cards a tab shows: `.filter(...).slice(0, 3)`, at most three items of the tab's
      category, in catalogue order, the first ones the filter yields. */
  function VisibleItems(items: seq<MenuItem>, tab: Tab): (r: seq<MenuItem>)
    ensures |r| <= 3
    ensures forall i :: 0 <= i < |r| ==> r[i].category == SectionCategory(tab)
    ensures |r| == if |Filter(items, SectionCategory(tab))| < 3 then |Filter(items, SectionCategory(tab))| else 3
    ensures r == Filter(items, SectionCategory(tab))[..|r|]
  {
    var all := Filter(items, SectionCategory(tab));
    if |all| <= 3 then all else all[..3]
  }

  /** The page's state: the fetched items, the loading flag, the selected tab, and the
      requests it has sent. */
  datatype HomeState = HomeState(menuItems: seq<MenuItem>, loading: bool, activeCategory: Tab, requests: seq<Request>)

  const HomeMenuUrl := LocalApi + "/menu"

  function Initial(): (s: HomeState)
    ensures s.menuItems == [] && s.loading && s.activeCategory == Food && s.requests == []
  {
    HomeState([], true, Food, [])
  }

  /** The mount effect: one request for the whole menu; the parsed body becomes the items,
      and loading ends whether or not the request succeeded. */
  function Mounted(s: HomeState, reply: Reply<seq<MenuItem>>): (t: HomeState)
    ensures !t.loading && t.activeCategory == s.activeCategory
    ensures t.requests == s.requests + [Get(HomeMenuUrl)]
    ensures reply.Json? ==> t.menuItems == reply.body
    ensures reply.Thrown? ==> t.menuItems == s.menuItems
  {
    var requested := s.(requests := s.requests + [Get(HomeMenuUrl)]);
    match reply
    case Json(data) => requested.(menuItems := data, loading := false)
    case Thrown => requested.(loading := false)
  }

  /** Pressing a tab changes only the selection: nothing is fetched again. */
  function SelectTab(s: HomeState, tab: Tab): (t: HomeState)
    ensures t.activeCategory == tab
    ensures t.menuItems == s.menuItems && t.loading == s.loading && t.requests == s.requests
  {
    s.(activeCategory := tab)
  }

  datatype HomeView = LoadingMenu | Cards(shown: seq<MenuItem>, emptyMessage: bool)

  function Render(s: HomeState): (v: HomeView)
    ensures v.LoadingMenu? <==> s.loading
  {
    if s.loading then LoadingMenu
    else Cards(VisibleItems(s.menuItems, s.activeCategory),
               |Filter(s.menuItems, EmptyCheckCategory(s.activeCategory))| == 0)
  }

  /** Once loaded, "No items available" shows exactly when the selected tab has no cards, and
      exactly when no item has the tab's category. */
  lemma EmptyMessageIff(s: HomeState)
    requires !s.loading
    ensures Render(s).emptyMessage <==> Render(s).shown == []
    ensures Render(s).emptyMessage <==> forall x :: x in s.menuItems ==> x.category != SectionCategory(s.activeCategory)
  {
    var all := Filter(s.menuItems, SectionCategory(s.activeCategory));
    if all != [] {
      assert all[0] in all;
    }
  }
}
