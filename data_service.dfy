/** The category tree the front end builds from the flat category list
    (`DataService.buildCategoryTree`, frontend/src/app/services/data.service.ts).

    The JavaScript builds one tree item object per id and links them by reference;
    here the objects live in a map from id to `TreeItem`, and a child or root list
    is a sequence of ids.  A reference to "the item of id x" is exactly what the
    source pushes, so duplicates and cycles behave as in the source. */
module DataService {
  import opened Text
  import opened Models
  import opened StableSort

  /** `CategoryTreeItem`: the category plus the UI fields and the child links. */
  datatype TreeItem = TreeItem(category: Category, expanded: bool, hasChildren: bool, children: seq<int>)

  /** No two records share an id. */
  predicate DistinctIds(cats: seq<Category>) {
    forall i, j :: 0 <= i < j < |cats| ==> cats[i].id != cats[j].id
  }

  /** The id-to-record map of the first pass: a later record with the same id
      replaces an earlier one. */
  function Lookup(cats: seq<Category>): (m: map<int, Category>)
    ensures forall i :: 0 <= i < |cats| ==> cats[i].id in m
    ensures forall id :: id in m ==> m[id].id == id && m[id] in cats
  {
    if cats == [] then map[]
    else
      var n := |cats| - 1;
      assert cats == cats[..n] + [cats[n]];
      Lookup(cats[..n])[cats[n].id := cats[n]]
  }

  /** The entry of an id is the last record carrying that id. */
  lemma {:induction false} LookupLast(cats: seq<Category>, i: int)
    requires 0 <= i < |cats|
    requires forall j :: i < j < |cats| ==> cats[j].id != cats[i].id
    ensures Lookup(cats)[cats[i].id] == cats[i]
  {
    var n := |cats| - 1;
    if i < n {
      LookupLast(cats[..n], i);
    }
  }

  /** With distinct ids every record is its own map entry. */
  lemma LookupDistinct(cats: seq<Category>, i: int)
    requires DistinctIds(cats) && 0 <= i < |cats|
    ensures Lookup(cats)[cats[i].id] == cats[i]
  {
    LookupLast(cats, i);
  }

  /** `display_order || order_index || 0`, the sort key of both sorts. */
  function OrderKey(c: Category): int {
    if c.displayOrder != 0 then c.displayOrder else if c.orderIndex != 0 then c.orderIndex else 0
  }

  /** The comparator key of an id: the order key of its item. */
  function ByOrder(L: map<int, Category>): int -> int {
    id => if id in L then OrderKey(L[id]) else 0
  }

  /** `category.parent_id && categoryMap.has(category.parent_id)` */
  predicate Resolves(c: Category, L: map<int, Category>) {
    c.parentId.Some? && c.parentId.value != 0 && c.parentId.value in L
  }

  /** The `tree` array after the second pass, before sorting: the ids of the
      records whose parent does not resolve, in input order. */
  function UnsortedRoots(cats: seq<Category>, L: map<int, Category>): seq<int>
  {
    if cats == [] then []
    else
      var n := |cats| - 1;
      UnsortedRoots(cats[..n], L) + (if Resolves(cats[n], L) then [] else [cats[n].id])
  }

  /** The `children` array of the item `p` after the second pass: the ids of the
      records whose parent resolves to `p`, in input order. */
  function ChildIds(cats: seq<Category>, L: map<int, Category>, p: int): seq<int>
  {
    if cats == [] then []
    else
      var n := |cats| - 1;
      ChildIds(cats[..n], L, p) + (if Resolves(cats[n], L) && cats[n].parentId.value == p then [cats[n].id] else [])
  }

  /** One more record extends the root list and one child list at the end. */
  lemma PrefixStep(cats: seq<Category>, L: map<int, Category>, i: int)
    requires 0 <= i < |cats|
    ensures UnsortedRoots(cats[..i + 1], L) ==
              UnsortedRoots(cats[..i], L) + (if Resolves(cats[i], L) then [] else [cats[i].id])
    ensures forall p :: ChildIds(cats[..i + 1], L, p) ==
              ChildIds(cats[..i], L, p) + (if Resolves(cats[i], L) && cats[i].parentId.value == p then [cats[i].id] else [])
  {
    assert cats[..i + 1][..i] == cats[..i];
  }

  /** The unsorted root list holds exactly the ids of the records whose parent
      does not resolve. */
  lemma {:induction false} UnsortedRootsMembers(cats: seq<Category>, L: map<int, Category>)
    ensures forall x :: x in UnsortedRoots(cats, L) ==> exists i :: 0 <= i < |cats| && cats[i].id == x && !Resolves(cats[i], L)
    ensures forall i :: 0 <= i < |cats| && !Resolves(cats[i], L) ==> cats[i].id in UnsortedRoots(cats, L)
  {
    if cats != [] {
      var n := |cats| - 1;
      UnsortedRootsMembers(cats[..n], L);
      assert forall i :: 0 <= i < n ==> cats[..n][i] == cats[i];
    }
  }

  /** Every root is the id of an item. */
  lemma RootsHaveItems(cats: seq<Category>, r: int)
    requires r in UnsortedRoots(cats, Lookup(cats))
    ensures r in Lookup(cats)
  {
    UnsortedRootsMembers(cats, Lookup(cats));
    var i :| 0 <= i < |cats| && cats[i].id == r && !Resolves(cats[i], Lookup(cats));
  }

  /** The children of `p` are exactly the ids of the records whose parent
      resolves to `p`. */
  lemma {:induction false} ChildIdsMembers(cats: seq<Category>, L: map<int, Category>, p: int)
    ensures forall x :: x in ChildIds(cats, L, p) ==>
              exists i :: 0 <= i < |cats| && cats[i].id == x && Resolves(cats[i], L) && cats[i].parentId.value == p
    ensures forall i :: 0 <= i < |cats| && Resolves(cats[i], L) && cats[i].parentId.value == p ==> cats[i].id in ChildIds(cats, L, p)
  {
    if cats != [] {
      var n := |cats| - 1;
      ChildIdsMembers(cats[..n], L, p);
      assert forall i :: 0 <= i < n ==> cats[..n][i] == cats[i];
    }
  }

  /** The item of `id` when `buildCategoryTree` returns: only the children of
      items that are in the root list get sorted. */
  function BuiltItem(cats: seq<Category>, id: int): TreeItem
    requires id in Lookup(cats)
  {
    var L := Lookup(cats);
    var kids := ChildIds(cats, L, id);
    TreeItem(L[id], false, kids != [],
             if id in UnsortedRoots(cats, L) then SortBy(kids, ByOrder(L)) else kids)
  }

  /** The root list `buildCategoryTree` returns. */
  function TreeRoots(cats: seq<Category>): seq<int> {
    var L := Lookup(cats);
    SortBy(UnsortedRoots(cats, L), ByOrder(L))
  }

  /** First pass: one created item per id; the last record of an id wins. */
  method CreateItems(categories: seq<Category>) returns (items: map<int, TreeItem>)
    ensures items.Keys == Lookup(categories).Keys
    ensures forall id :: id in items ==> items[id] == TreeItem(Lookup(categories)[id], false, false, [])
  {
    items := map[];
    var i := 0;
    while i < |categories|
      invariant 0 <= i <= |categories|
      invariant items.Keys == Lookup(categories[..i]).Keys
      invariant forall id :: id in items ==> items[id] == TreeItem(Lookup(categories[..i])[id], false, false, [])
    {
      var c := categories[i];
      items := items[c.id := TreeItem(c, false, false, [])];
      assert categories[..i + 1][..i] == categories[..i];
      i := i + 1;
    }
    assert categories[..i] == categories;
  }

  /** The items after the second pass has seen the records `cats`. */
  ghost predicate Linked(items: map<int, TreeItem>, cats: seq<Category>, L: map<int, Category>) {
    items.Keys == L.Keys
    && forall id :: id in items ==>
         items[id] == TreeItem(L[id], false, ChildIds(cats, L, id) != [], ChildIds(cats, L, id))
  }

  /** A record whose parent resolves is appended to that parent's children. */
  lemma LinkStep(items: map<int, TreeItem>, cats: seq<Category>, L: map<int, Category>, i: int)
    requires 0 <= i < |cats| && Linked(items, cats[..i], L) && Resolves(cats[i], L)
    ensures var p := cats[i].parentId.value;
      Linked(items[p := items[p].(children := items[p].children + [cats[i].id], hasChildren := true)], cats[..i + 1], L)
  {
    PrefixStep(cats, L, i);
  }

  /** A record whose parent does not resolve leaves every child list alone. */
  lemma KeepStep(items: map<int, TreeItem>, cats: seq<Category>, L: map<int, Category>, i: int)
    requires 0 <= i < |cats| && Linked(items, cats[..i], L) && !Resolves(cats[i], L)
    ensures Linked(items, cats[..i + 1], L)
  {
    PrefixStep(cats, L, i);
  }

  /** Second pass: link each record under its parent, or append it to the roots. */
  method LinkItems(categories: seq<Category>, created: map<int, TreeItem>) returns (roots: seq<int>, items: map<int, TreeItem>)
    requires Linked(created, [], Lookup(categories))
    ensures roots == UnsortedRoots(categories, Lookup(categories))
    ensures Linked(items, categories, Lookup(categories))
  {
    ghost var L := Lookup(categories);
    items := created;
    roots := [];
    var i := 0;
    while i < |categories|
      invariant 0 <= i <= |categories|
      invariant roots == UnsortedRoots(categories[..i], L)
      invariant Linked(items, categories[..i], L)
    {
      var c := categories[i];
      PrefixStep(categories, L, i);
      if c.parentId.Some? && c.parentId.value != 0 && c.parentId.value in items {
        var p := c.parentId.value;
        var parent := items[p];
        LinkStep(items, categories, L, i);
        items := items[p := parent.(children := parent.children + [c.id], hasChildren := true)];
      } else {
        KeepStep(items, categories, L, i);
        roots := roots + [c.id];
      }
      i := i + 1;
    }
    assert categories[..i] == categories;
  }

  /** The items after the third pass has handled the roots `done`. */
  ghost predicate ChildrenSorted(items: map<int, TreeItem>, cats: seq<Category>, L: map<int, Category>, done: seq<int>) {
    items.Keys == L.Keys
    && forall id :: id in items ==>
         items[id] == TreeItem(L[id], false, ChildIds(cats, L, id) != [],
           if id in done then SortBy(ChildIds(cats, L, id), ByOrder(L)) else ChildIds(cats, L, id))
  }

  /** Sorting the children of one more root; a root met twice is already sorted. */
  lemma SortStep(items: map<int, TreeItem>, cats: seq<Category>, L: map<int, Category>, done: seq<int>, r: int)
    requires ChildrenSorted(items, cats, L, done) && r in L
    ensures var item := items[r];
      ChildrenSorted(if |item.children| > 0 then items[r := item.(children := SortBy(item.children, ByOrder(L)))] else items,
                     cats, L, done + [r])
  {
    var item := items[r];
    var kids := ChildIds(cats, L, r);
    var sorted := SortBy(kids, ByOrder(L));
    var after := if |item.children| > 0 then items[r := item.(children := SortBy(item.children, ByOrder(L)))] else items;
    if r in done {
      assert item.children == sorted;
      SortBySorted(kids, ByOrder(L));
      SortByOfSorted(sorted, ByOrder(L));
      assert after[r] == TreeItem(L[r], false, kids != [], sorted);
    } else if kids == [] {
      assert sorted == [];
      assert after[r] == TreeItem(L[r], false, kids != [], sorted);
    } else {
      assert after[r] == TreeItem(L[r], false, kids != [], sorted);
    }
    forall id | id in after
      ensures after[id] == TreeItem(L[id], false, ChildIds(cats, L, id) != [],
           if id in done + [r] then SortBy(ChildIds(cats, L, id), ByOrder(L)) else ChildIds(cats, L, id))
    {
      if id != r {
        assert after[id] == items[id];
        assert (id in done + [r]) == (id in done);
      }
    }
  }

  /** Third pass: sort the children of every item in the unsorted root list. */
  method SortRootChildren(categories: seq<Category>, roots: seq<int>, linked: map<int, TreeItem>, byId: map<int, Category>)
    returns (items: map<int, TreeItem>)
    requires forall r :: r in roots ==> r in byId
    requires Linked(linked, categories, byId)
    ensures ChildrenSorted(items, categories, byId, roots)
  {
    items := linked;
    var j := 0;
    while j < |roots|
      invariant 0 <= j <= |roots|
      invariant ChildrenSorted(items, categories, byId, roots[..j])
    {
      var r := roots[j];
      items := SortChildrenOf(items, categories, byId, roots[..j], r);
      assert roots[..j + 1] == roots[..j] + [r];
      j := j + 1;
    }
    assert roots[..j] == roots;
  }

  /** The body of the third pass's loop, for the root `r`. */
  method SortChildrenOf(items: map<int, TreeItem>, cats: seq<Category>, byId: map<int, Category>,
                        ghost done: seq<int>, r: int)
    returns (after: map<int, TreeItem>)
    requires ChildrenSorted(items, cats, byId, done) && r in byId
    ensures ChildrenSorted(after, cats, byId, done + [r])
  {
    var item := items[r];
    SortStep(items, cats, byId, done, r);
    after := items;
    if |item.children| > 0 {
      after := items[r := item.(children := SortBy(item.children, ByOrder(byId)))];
    }
  }

  /** The items after the third pass are the built items, and they have the
      promised shape. */
  lemma ItemsAreBuilt(cats: seq<Category>, items: map<int, TreeItem>)
    requires ChildrenSorted(items, cats, Lookup(cats), UnsortedRoots(cats, Lookup(cats)))
    ensures items.Keys == Lookup(cats).Keys
    ensures forall id :: id in items ==> items[id] == BuiltItem(cats, id)
    ensures forall id :: id in items ==> !items[id].expanded && (items[id].hasChildren <==> items[id].children != [])
    ensures forall id :: id in items && id in TreeRoots(cats) ==> SortedBy(items[id].children, ByOrder(Lookup(cats)))
  {
    var L := Lookup(cats);
    var R := UnsortedRoots(cats, L);
    forall id | id in items
      ensures items[id] == BuiltItem(cats, id)
      ensures items[id].hasChildren <==> items[id].children != []
    {
      var kids := ChildIds(cats, L, id);
      assert items[id] == TreeItem(L[id], false, kids != [], if id in R then SortBy(kids, ByOrder(L)) else kids);
      assert |SortBy(kids, ByOrder(L))| == |kids|;
    }
    forall id | id in items && id in TreeRoots(cats)
      ensures SortedBy(items[id].children, ByOrder(L))
    {
      assert id in R by {
        assert multiset(TreeRoots(cats)) == multiset(R);
        assert id in multiset(TreeRoots(cats));
      }
      var kids := ChildIds(cats, L, id);
      assert items[id].children == SortBy(kids, ByOrder(L));
      SortBySorted(kids, ByOrder(L));
    }
  }

  /** `buildCategoryTree`: the three passes, then the sort of the root list. */
  method BuildCategoryTree(categories: seq<Category>) returns (tree: seq<int>, items: map<int, TreeItem>)
    ensures items.Keys == Lookup(categories).Keys
    ensures tree == TreeRoots(categories)
    ensures forall id :: id in items ==> items[id] == BuiltItem(categories, id)
    // what the result means
    ensures multiset(tree) == multiset(UnsortedRoots(categories, Lookup(categories)))
    ensures SortedBy(tree, ByOrder(Lookup(categories)))
    ensures forall id :: id in items ==> !items[id].expanded && (items[id].hasChildren <==> items[id].children != [])
    ensures forall id :: id in items && id in tree ==> SortedBy(items[id].children, ByOrder(Lookup(categories)))
  {
    var created := CreateItems(categories);
    // the comparator reads the order fields of the items themselves
    var byId := map id | id in created :: created[id].category;
    assert byId == Lookup(categories);
    var roots, linked := LinkItems(categories, created);
    forall r | r in roots ensures r in byId {
      RootsHaveItems(categories, r);
    }
    items := SortRootChildren(categories, roots, linked, byId);
    tree := SortBy(roots, ByOrder(byId));
    SortBySorted(roots, ByOrder(byId));
    ItemsAreBuilt(categories, items);
  }

  /** A record is a root exactly when its parent does not resolve, and each
      record with a distinct id sits in exactly one place of the structure: once
      in the root list, or once among the children of its parent and nowhere else. */
  lemma {:induction false} RootCount(cats: seq<Category>, L: map<int, Category>, i: int)
    requires DistinctIds(cats) && 0 <= i < |cats|
    ensures multiset(UnsortedRoots(cats, L))[cats[i].id] == if Resolves(cats[i], L) then 0 else 1
  {
    var n := |cats| - 1;
    var pre := cats[..n];
    assert DistinctIds(pre);
    assert UnsortedRoots(cats, L) == UnsortedRoots(pre, L) + (if Resolves(cats[n], L) then [] else [cats[n].id]);
    if i == n {
      UnsortedRootsMembers(pre, L);
      assert cats[n].id !in UnsortedRoots(pre, L);
    } else {
      RootCount(pre, L, i);
      assert pre[i] == cats[i];
    }
  }

  lemma {:induction false} ChildCount(cats: seq<Category>, L: map<int, Category>, i: int, p: int)
    requires DistinctIds(cats) && 0 <= i < |cats|
    ensures multiset(ChildIds(cats, L, p))[cats[i].id] ==
              if Resolves(cats[i], L) && cats[i].parentId.value == p then 1 else 0
  {
    var n := |cats| - 1;
    var pre := cats[..n];
    assert DistinctIds(pre);
    assert ChildIds(cats, L, p) == ChildIds(pre, L, p) + (if Resolves(cats[n], L) && cats[n].parentId.value == p then [cats[n].id] else []);
    if i == n {
      ChildIdsMembers(pre, L, p);
      assert cats[n].id !in ChildIds(pre, L, p);
    } else {
      ChildCount(pre, L, i, p);
      assert pre[i] == cats[i];
    }
  }

  /** Every record appears exactly once in the built structure: in the root list
      when its parent does not resolve, otherwise among its parent's children. */
  lemma PlacedExactlyOnce(cats: seq<Category>, i: int)
    requires DistinctIds(cats) && 0 <= i < |cats|
    ensures var c := cats[i];
      if Resolves(c, Lookup(cats)) then
        multiset(TreeRoots(cats))[c.id] == 0
        && multiset(BuiltItem(cats, c.parentId.value).children)[c.id] == 1
        && forall p :: p in Lookup(cats) && p != c.parentId.value ==> c.id !in BuiltItem(cats, p).children
      else
        multiset(TreeRoots(cats))[c.id] == 1
        && forall p :: p in Lookup(cats) ==> c.id !in BuiltItem(cats, p).children
  {
    var L := Lookup(cats);
    var c := cats[i];
    RootCount(cats, L, i);
    forall p | p in L
      ensures multiset(BuiltItem(cats, p).children)[c.id] == multiset(ChildIds(cats, L, p))[c.id]
    {
    }
    forall p | p in L
      ensures multiset(ChildIds(cats, L, p))[c.id] == if Resolves(c, L) && c.parentId.value == p then 1 else 0
    {
      ChildCount(cats, L, i, p);
    }
  }

  /** A record that names itself as parent (with a truthy id) is linked under
      itself and so is missing from the root list. */
  lemma SelfParentHidden(cats: seq<Category>, i: int)
    requires DistinctIds(cats) && 0 <= i < |cats|
    requires cats[i].parentId == Some(cats[i].id) && cats[i].id != 0
    ensures cats[i].id !in TreeRoots(cats)
    ensures cats[i].id in BuiltItem(cats, cats[i].id).children
  {
    PlacedExactlyOnce(cats, i);
  }
}
