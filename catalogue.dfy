/**
 * The menu catalogue component (components/MenuItems.js): the category tabs and the
 * item list narrowed by a free-text search and the selected category.
 */
module Catalogue {
  import opened Wrappers
  import Text
  import Seqs

  /** A menu entry as the menu service delivers it; `precio` is in cents. */
  datatype MenuItem = MenuItem(
    id: int,
    nombre: string,
    descripcion: Option<string>,
    precio: int,
    categoria: string)

  /** The tab that stands for "no category filter"; it is also the initial selection. */
  const AllCategories := "Todos"

  // ---------------------------------------------------------------------------
  // Category tabs: `['Todos', ...new Set(items.map(item => item.categoria))]`
  // ---------------------------------------------------------------------------

  predicate NoDuplicates<T(==)>(s: seq<T>)
  {
    forall i, j :: 0 <= i < j < |s| ==> s[i] != s[j]
  }

  /** The distinct values of `s`, as a JavaScript `Set` iterates them: by first insertion. */
  function Distinct<T(==)>(s: seq<T>): (r: seq<T>)
    ensures forall x :: x in r ==> x in s
    ensures forall x :: x in s ==> x in r
    ensures NoDuplicates(r)
  {
    if s == [] then []
    else
      var r := Distinct(s[..|s| - 1]);
      var last := s[|s| - 1];
      assert s == s[..|s| - 1] + [last];
      if last in r then r else r + [last]
  }

  /** Position of the first occurrence of `x` in `s`. */
  function FirstIndex<T(==)>(s: seq<T>, x: T): (k: nat)
    requires x in s
    ensures k < |s| && s[k] == x && x !in s[..k]
  {
    if s[0] == x then 0
    else
      var k := 1 + FirstIndex(s[1..], x);
      assert s[..k] == [s[0]] + s[1..][..k - 1];
      k
  }

  /** A value first seen in a prefix has the same first position in the whole sequence. */
  lemma {:induction false} FirstIndexInPrefix<T>(s: seq<T>, n: nat, x: T)
    requires n <= |s| && x in s[..n]
    ensures FirstIndex(s, x) == FirstIndex(s[..n], x)
  {
    if s[0] != x {
      assert s[..n] == [s[0]] + s[1..][..n - 1];
      FirstIndexInPrefix(s[1..], n - 1, x);
    }
  }

  /** The distinct values come out in the order of their first appearance. */
  lemma {:induction false} DistinctFirstSeenOrder<T>(s: seq<T>)
    ensures forall i, j :: 0 <= i < j < |Distinct(s)| ==>
      FirstIndex(s, Distinct(s)[i]) < FirstIndex(s, Distinct(s)[j])
  {
    if s != [] {
      var n := |s| - 1;
      var init := s[..n];
      var last := s[n];
      DistinctFirstSeenOrder(init);
      var r0 := Distinct(init);
      var r := Distinct(s);
      forall x | x in init ensures FirstIndex(s, x) == FirstIndex(init, x) && FirstIndex(s, x) < n {
        FirstIndexInPrefix(s, n, x);
      }
      if last !in r0 {
        assert r == r0 + [last];
        assert last !in init;
        assert FirstIndex(s, last) == n;
      } else {
        assert r == r0;
      }
    }
  }

  /** `items.map(item => item.categoria)` */
  function CategoryColumn(items: seq<MenuItem>): (cs: seq<string>)
    ensures |cs| == |items| && forall i :: 0 <= i < |items| ==> cs[i] == items[i].categoria
  {
    seq(|items|, i requires 0 <= i < |items| => items[i].categoria)
  }

  /** The category tabs: "Todos" first, then every category of the menu exactly once. */
  function Categories(items: seq<MenuItem>): (tabs: seq<string>)
    ensures 1 <= |tabs| && tabs[0] == AllCategories
    ensures NoDuplicates(tabs[1..])
    ensures forall c :: c in tabs[1..] <==> exists i :: 0 <= i < |items| && items[i].categoria == c
  {
    var cs := CategoryColumn(items);
    var tabs := [AllCategories] + Distinct(cs);
    assert tabs[1..] == Distinct(cs);
    assert forall c :: c in cs <==> exists i :: 0 <= i < |items| && items[i].categoria == c by {
      forall c | c in cs ensures exists i :: 0 <= i < |items| && items[i].categoria == c {
        var i :| 0 <= i < |cs| && cs[i] == c;
      }
    }
    tabs
  }

  /** The tabs after "Todos" follow the order in which each category first appears in the menu. */
  lemma CategoriesFirstSeenOrder(items: seq<MenuItem>)
    ensures var tabs := Categories(items);
      forall i, j :: 1 <= i < j < |tabs| ==>
        FirstIndex(CategoryColumn(items), tabs[i]) < FirstIndex(CategoryColumn(items), tabs[j])
  {
    var cs := CategoryColumn(items);
    var tabs := Categories(items);
    DistinctFirstSeenOrder(cs);
    assert tabs[1..] == Distinct(cs);
    forall i, j | 1 <= i < j < |tabs|
      ensures FirstIndex(cs, tabs[i]) < FirstIndex(cs, tabs[j])
    {
      assert tabs[i] == Distinct(cs)[i - 1] && tabs[j] == Distinct(cs)[j - 1];
    }
  }

  // ---------------------------------------------------------------------------
  // The item filter
  // ---------------------------------------------------------------------------

  /** `item.descripcion` is truthy: present and not the empty string. */
  predicate HasDescription(item: MenuItem)
  {
    item.descripcion.Some? && item.descripcion.value != ""
  }

  /**
   * The lower-cased query occurs in the lower-cased name or, when there is a description,
   * in the lower-cased description.
   */
  function MatchesSearch(item: MenuItem, query: string): (r: bool)
    ensures r <==>
      (exists i :: Text.OccursAt(Text.Lower(item.nombre), Text.Lower(query), i)) ||
      (HasDescription(item) &&
       exists i :: Text.OccursAt(Text.Lower(item.descripcion.value), Text.Lower(query), i))
    ensures !HasDescription(item) ==>
      (r <==> exists i :: Text.OccursAt(Text.Lower(item.nombre), Text.Lower(query), i))
  {
    Text.Contains(Text.Lower(item.nombre), Text.Lower(query)) ||
    (HasDescription(item) && Text.Contains(Text.Lower(item.descripcion.value), Text.Lower(query)))
  }

  predicate MatchesCategory(item: MenuItem, selected: string)
    ensures selected == AllCategories ==> MatchesCategory(item, selected)
    ensures selected != AllCategories ==> (MatchesCategory(item, selected) <==> item.categoria == selected)
  {
    selected == AllCategories || item.categoria == selected
  }

  predicate Shown(item: MenuItem, query: string, selected: string)
  {
    MatchesSearch(item, query) && MatchesCategory(item, selected)
  }

  /** The items listed under the search box. */
  function FilteredItems(items: seq<MenuItem>, query: string, selected: string): (r: seq<MenuItem>)
    ensures forall x :: x in r ==> x in items && MatchesSearch(x, query)
    ensures selected != AllCategories ==> forall x :: x in r ==> x.categoria == selected
  {
    Seqs.Filter(items, item => Shown(item, query, selected))
  }

  /** The list keeps the menu's order and takes each item that passes both tests. */
  lemma FilteredItemsExact(items: seq<MenuItem>, query: string, selected: string)
    ensures Seqs.IsSubseq(FilteredItems(items, query, selected), items)
    ensures forall x :: x in FilteredItems(items, query, selected) <==> x in items && Shown(x, query, selected)
    ensures forall x :: multiset(FilteredItems(items, query, selected))[x]
                          == if Shown(x, query, selected) then multiset(items)[x] else 0
  {
    var p := item => Shown(item, query, selected);
    Seqs.FilterIsSubseq(items, p);
    forall x ensures x in FilteredItems(items, query, selected) <==> x in items && Shown(x, query, selected) {
      Seqs.FilterMembership(items, p, x);
    }
    forall x ensures multiset(FilteredItems(items, query, selected))[x]
                       == if Shown(x, query, selected) then multiset(items)[x] else 0 {
      Seqs.FilterMultiset(items, p, x);
    }
  }

  /**
   * Picking a category tab with the search box empty lists every menu item of that category,
   * each as often as it is on the menu, and nothing else.
   */
  lemma CategoryTabListsAll(items: seq<MenuItem>, selected: string)
    requires selected != AllCategories
    ensures forall x :: multiset(FilteredItems(items, "", selected))[x]
                          == if x.categoria == selected then multiset(items)[x] else 0
  {
    FilteredItemsExact(items, "", selected);
    forall x: MenuItem ensures Shown(x, "", selected) <==> x.categoria == selected {
      assert Text.OccursAt(Text.Lower(x.nombre), Text.Lower(""), 0);
    }
  }

  /** With the initial state of the screen (empty search, "Todos") the whole menu is listed. */
  lemma UnfilteredShowsAll(items: seq<MenuItem>)
    ensures FilteredItems(items, "", AllCategories) == items
  {
    forall i | 0 <= i < |items| ensures Shown(items[i], "", AllCategories) {
      assert Text.OccursAt(Text.Lower(items[i].nombre), Text.Lower(""), 0);
    }
    Seqs.FilterKeepsAll(items, item => Shown(item, "", AllCategories));
  }
}
