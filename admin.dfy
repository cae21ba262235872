/** The category side of the admin page (frontend/src/app/pages/admin/admin.component.ts):
    moving categories up and down, drag-and-drop through the CDK `moveItemInArray`,
    the `{id, display_order}` batch each reorder sends, the refresh policy, the
    main-category list and the page's own image-URL rewrite. */
module Admin {
  import opened Text
  import opened Models
  import opened StableSort
  import opened DataService
  import opened UrlConverter

  // ------------------------------------------------------------ image URLs

  /** Whether one of the three rewrite branches of the page's `convertImageUrl`
      is taken (the URL is then returned as the rewrite leaves it). */
  predicate ProxyBranch(url: string) {
    StartsWith(url, Localhost)
    || (StartsWith(url, "https://") && Contains(url, ":8080/"))
    || (StartsWith(url, "http://") && Contains(url, ":8080/"))
  }

  /** The page's private `convertImageUrl` (identical in the home page). */
  function ConvertImageUrl(url: string): string {
    if url == "" then url
    else if StartsWith(url, Localhost) then ReplaceFirst(url, Localhost, "/")
    else if StartsWith(url, "https://") && Contains(url, ":8080/") then ReplaceBackend(url, "https://")
    else if StartsWith(url, "http://") && Contains(url, ":8080/") then ReplaceBackend(url, "http://")
    else url
  }

  /** A backend URL that also starts with the localhost prefix can only be the
      localhost one. */
  lemma LocalhostHost(scheme: string, host: string, rest: string)
    requires scheme == "https://" || scheme == "http://"
    requires forall k :: 0 <= k < |host| ==> host[k] != '/'
    requires StartsWith(scheme + host + ":8080/" + rest, Localhost)
    ensures scheme == "http://" && |host| == 9
  {
    var url := scheme + host + ":8080/" + rest;
    assert url[..22] == Localhost;
    assert url[4] == ':';
    assert |scheme| == 7;
    var q := FirstOf(url, 7, IsSlash);
    // the first '/' after the scheme closes ":8080/" in the URL ...
    assert url[7 + |host| + 5] == '/';
    assert forall k :: 7 <= k < 7 + |host| + 5 ==> url[k] != '/' by {
      forall k | 7 <= k < 7 + |host| + 5 ensures url[k] != '/' {
        if k < 7 + |host| {
          assert url[k] == host[k - 7];
        } else {
          assert url[k] == ":8080/"[k - 7 - |host|];
        }
      }
    }
    // ... and sits at index 21 in the localhost prefix
    assert url[21] == '/';
    assert forall k :: 7 <= k < 21 ==> url[k] != '/' by {
      forall k | 7 <= k < 21 ensures url[k] != '/' {
        assert url[k] == Localhost[k];
      }
    }
    assert q == 7 + |host| + 5 && q == 21;
  }

  /** Which branch a URL takes. */
  lemma ConvertBranch(url: string, scheme: string)
    requires scheme == "https://" || scheme == "http://"
    requires StartsWith(url, scheme) && Contains(url, ":8080/") && !StartsWith(url, Localhost)
    requires scheme == "http://" ==> !StartsWith(url, "https://")
    ensures ConvertImageUrl(url) == ReplaceBackend(url, scheme)
  {
  }

  lemma ConvertNonLocalBackendUrl(scheme: string, host: string, rest: string)
    requires scheme == "https://" || scheme == "http://"
    requires host != [] && forall k :: 0 <= k < |host| ==> host[k] != '/'
    requires !StartsWith(scheme + host + ":8080/" + rest, Localhost)
    ensures ConvertImageUrl(scheme + host + ":8080/" + rest) == "/" + rest
  {
    var url := scheme + host + ":8080/" + rest;
    assert StartsWith(url, scheme);
    assert OccursAt(url, ":8080/", |scheme| + |host|) by {
      assert url[|scheme| + |host|..|scheme| + |host| + 6] == ":8080/";
    }
    ContainsIff(url, ":8080/");
    if scheme == "http://" {
      assert !StartsWith(url, "https://") by { assert url[4] == ':'; }
    }
    ConvertBranch(url, scheme);
    ReplaceBackendOfUrl(scheme, host, rest);
  }

  /** An absolute backend URL `scheme://host:8080/path` becomes `/path`; the
      localhost prefix does too. */
  lemma ConvertBackendUrl(scheme: string, host: string, rest: string)
    requires scheme == "https://" || scheme == "http://"
    requires host != [] && forall k :: 0 <= k < |host| ==> host[k] != '/'
    ensures ConvertImageUrl(scheme + host + ":8080/" + rest) == "/" + rest
  {
    var url := scheme + host + ":8080/" + rest;
    if StartsWith(url, Localhost) {
      LocalhostHost(scheme, host, rest);
      assert url == Localhost + rest;
      ConvertLocalhostUrl(rest);
    } else {
      ConvertNonLocalBackendUrl(scheme, host, rest);
    }
  }

  lemma ConvertLocalhostUrl(rest: string)
    ensures ConvertImageUrl(Localhost + rest) == "/" + rest
  {
    assert (Localhost + rest)[..|Localhost|] == Localhost;
    ReplaceFirstOfPrefix(Localhost + rest, Localhost, "/");
    assert (Localhost + rest)[|Localhost|..] == rest;
  }

  /** Relative paths and anything without ":8080/" (other than the localhost
      prefix) come back unchanged; so a converted URL is not converted again. */
  lemma ConvertKeepsOthers(url: string)
    requires StartsWith(url, "/") || (!StartsWith(url, Localhost) && !Contains(url, ":8080/"))
    ensures ConvertImageUrl(url) == url
  {
    if StartsWith(url, "/") && url != "" {
      assert url[0] == '/';
      assert !StartsWith(url, Localhost) && !StartsWith(url, "https://") && !StartsWith(url, "http://") by {
        assert Localhost[0] != '/' && "https://"[0] != '/';
      }
    }
  }

  // ------------------------------------------------------------ order batches

  /** `OrderUpdate` of frontend/src/app/interfaces/admin.interfaces.ts */
  datatype OrderUpdate = OrderUpdate(id: int, displayOrder: int)

  /** `list.map((item, index) => ({ id: item.id, display_order: index + 1 }))` */
  function OrderUpdates(ids: seq<int>): (batch: seq<OrderUpdate>)
    ensures |batch| == |ids|
    ensures forall i :: 0 <= i < |ids| ==> batch[i].id == ids[i]
  {
    seq(|ids|, i requires 0 <= i < |ids| => OrderUpdate(ids[i], i + 1))
  }

  /** The batch numbers the list densely: the first entry gets 1, each next
      entry one more, so the orders are 1..N with no gap and no repeat. */
  lemma OrderUpdatesDense(ids: seq<int>)
    ensures forall i :: 0 <= i < |ids| ==> 1 <= OrderUpdates(ids)[i].displayOrder <= |ids|
    ensures ids != [] ==> OrderUpdates(ids)[0].displayOrder == 1
    ensures forall i :: 0 <= i < |ids| - 1 ==> OrderUpdates(ids)[i + 1].displayOrder == OrderUpdates(ids)[i].displayOrder + 1
    ensures forall i, j :: 0 <= i < j < |ids| ==> OrderUpdates(ids)[i].displayOrder < OrderUpdates(ids)[j].displayOrder
  {
  }

  /** What the backend does with a batch (`UpdateCategoryOrder`): each listed
      category gets the listed display order. */
  function ApplyOrder(L: map<int, Category>, batch: seq<OrderUpdate>): (M: map<int, Category>)
    ensures M.Keys == L.Keys
  {
    if batch == [] then L
    else
      var u := batch[|batch| - 1];
      var M0 := ApplyOrder(L, batch[..|batch| - 1]);
      if u.id in M0 then M0[u.id := M0[u.id].(displayOrder := u.displayOrder)] else M0
  }

  /** With distinct ids in the batch, every listed category ends with the listed
      display order and every other category is as it was. */
  lemma {:induction false} ApplyOrderEffect(L: map<int, Category>, batch: seq<OrderUpdate>)
    requires forall i, j :: 0 <= i < j < |batch| ==> batch[i].id != batch[j].id
    ensures forall i :: 0 <= i < |batch| && batch[i].id in L ==>
              ApplyOrder(L, batch)[batch[i].id] == L[batch[i].id].(displayOrder := batch[i].displayOrder)
    ensures forall id :: id in L && (forall i :: 0 <= i < |batch| ==> batch[i].id != id) ==>
              ApplyOrder(L, batch)[id] == L[id]
  {
    if batch != [] {
      var n := |batch| - 1;
      var b0 := batch[..n];
      ApplyOrderEffect(L, b0);
      var M0 := ApplyOrder(L, b0);
      var u := batch[n];
      var M := ApplyOrder(L, batch);
      assert M == if u.id in M0 then M0[u.id := M0[u.id].(displayOrder := u.displayOrder)] else M0;
      forall i | 0 <= i < |batch| && batch[i].id in L
        ensures M[batch[i].id] == L[batch[i].id].(displayOrder := batch[i].displayOrder)
      {
        if i < n {
          assert b0[i] == batch[i] && batch[i].id != u.id;
        } else {
          assert forall j :: 0 <= j < n ==> b0[j].id != u.id;
        }
      }
      forall id | id in L && (forall i :: 0 <= i < |batch| ==> batch[i].id != id)
        ensures M[id] == L[id]
      {
        assert forall j :: 0 <= j < n ==> b0[j].id != id;
        assert u.id != id;
      }
    }
  }

  /** A successful reorder survives the next rebuild: once the backend has
      stored the batch, sorting the list by the stored keys gives the same order. */
  lemma ReorderSurvivesRebuild(L: map<int, Category>, ids: seq<int>)
    requires forall i, j :: 0 <= i < j < |ids| ==> ids[i] != ids[j]
    requires forall i :: 0 <= i < |ids| ==> ids[i] in L
    ensures SortBy(ids, ByOrder(ApplyOrder(L, OrderUpdates(ids)))) == ids
  {
    var b := OrderUpdates(ids);
    var M := ApplyOrder(L, b);
    ApplyOrderEffect(L, b);
    assert forall i :: 0 <= i < |ids| ==> ByOrder(M)(ids[i]) == i + 1 by {
      forall i | 0 <= i < |ids| ensures ByOrder(M)(ids[i]) == i + 1 {
        assert b[i].id == ids[i];
      }
    }
    SortByOfSorted(ids, ByOrder(M));
  }

  // ------------------------------------------------------------ swaps and moves

  /** `[s[i], s[j]] = [s[j], s[i]]` */
  function Swap(s: seq<int>, i: int, j: int): seq<int>
    requires 0 <= i < |s| && 0 <= j < |s|
  {
    s[i := s[j]][j := s[i]]
  }

  /** A swap exchanges the two slots, leaves every other slot alone and undoes
      itself. */
  lemma SwapEffect(s: seq<int>, i: int, j: int)
    requires 0 <= i < |s| && 0 <= j < |s|
    ensures |Swap(s, i, j)| == |s|
    ensures Swap(s, i, j)[i] == s[j] && Swap(s, i, j)[j] == s[i]
    ensures forall k :: 0 <= k < |s| && k != i && k != j ==> Swap(s, i, j)[k] == s[k]
    ensures Swap(Swap(s, i, j), i, j) == s
  {
  }

  /** A swap keeps the items: the list is a permutation of the old one. */
  lemma SwapPermutation(s: seq<int>, i: int, j: int)
    requires 0 <= i < |s| && 0 <= j < |s|
    ensures multiset(Swap(s, i, j)) == multiset(s)
  {
    var t := s[i := s[j]];
    assert multiset(t) == multiset(s)[s[i] := multiset(s)[s[i]] - 1][s[j] := multiset(s)[s[j]] + (if s[i] == s[j] then 0 else 1)];
  }

  /** `Math.max(0, Math.min(max, value))`, the CDK clamp. */
  function Clamp(value: int, max: int): int {
    if max < value then (if max < 0 then 0 else max) else (if value < 0 then 0 else value)
  }

  /** The relocation `moveItemInArray` performs: take the item at `f` out, then
      insert it at `t`. */
  function Moved(s: seq<int>, f: int, t: int): seq<int>
    requires 0 <= f < |s| && 0 <= t < |s|
  {
    var r := s[..f] + s[f + 1..];
    r[..t] + [s[f]] + r[t..]
  }

  /** Where the item in each slot comes from after a move. */
  function MovedSource(f: int, t: int, k: int): int {
    if k == t then f
    else if f < t && f <= k < t then k + 1
    else if t < f && t < k <= f then k - 1
    else k
  }

  /** Every slot of the moved list holds the old item its source names. */
  lemma MovedAt(s: seq<int>, f: int, t: int, k: int)
    requires 0 <= f < |s| && 0 <= t < |s| && 0 <= k < |s|
    ensures |Moved(s, f, t)| == |s|
    ensures 0 <= MovedSource(f, t, k) < |s| && Moved(s, f, t)[k] == s[MovedSource(f, t, k)]
  {
  }

  /** A move keeps the items. */
  lemma MovedPermutation(s: seq<int>, f: int, t: int)
    requires 0 <= f < |s| && 0 <= t < |s|
    ensures multiset(Moved(s, f, t)) == multiset(s)
  {
    var r := s[..f] + s[f + 1..];
    assert s == s[..f] + [s[f]] + s[f + 1..];
    assert multiset(s) == multiset(r) + multiset{s[f]};
    assert r == r[..t] + r[t..];
    assert multiset(r) == multiset(r[..t]) + multiset(r[t..]);
  }

  /** Dragging the item back to where it came from restores the list. */
  lemma MovedUndo(s: seq<int>, f: int, t: int)
    requires 0 <= f < |s| && 0 <= t < |s|
    ensures Moved(Moved(s, f, t), t, f) == s
  {
    var m := Moved(s, f, t);
    MovedAt(s, f, t, 0);
    forall k | 0 <= k < |s| ensures Moved(m, t, f)[k] == s[k] {
      MovedAt(m, t, f, k);
      MovedAt(s, f, t, MovedSource(t, f, k));
    }
  }

  /** The array during the shift loop: slots the loop has passed hold their
      neighbour's old item, all others their own. */
  ghost function ShiftedAt(s: seq<int>, from: int, to: int, i: int, k: int): int
    requires 0 <= k < |s| && 0 <= from < |s| && 0 <= to < |s| && 0 <= i < |s|
  {
    if from < to && from <= k < i then s[k + 1]
    else if to < from && i < k <= from then s[k - 1]
    else s[k]
  }

  /** One step of the shift loop: slot `i` takes its neighbour's item and no
      other slot changes. */
  lemma ShiftStep(s: seq<int>, from: int, to: int, i: int, delta: int)
    requires 0 <= from < |s| && 0 <= to < |s| && from != to
    requires delta == if to < from then -1 else 1
    requires from < to ==> from <= i < to
    requires to < from ==> to < i <= from
    ensures 0 <= i + delta < |s|
    ensures ShiftedAt(s, from, to, i + delta, i) == ShiftedAt(s, from, to, i, i + delta)
    ensures forall k :: 0 <= k < |s| && k != i ==> ShiftedAt(s, from, to, i + delta, k) == ShiftedAt(s, from, to, i, k)
  {
  }

  /** Once the loop has reached `to`, dropping the item into slot `to` completes
      the move. */
  lemma ShiftThenPlace(s: seq<int>, from: int, to: int, r: seq<int>)
    requires 0 <= from < |s| && 0 <= to < |s| && from != to && |r| == |s|
    requires r[to] == s[from]
    requires forall k :: 0 <= k < |s| && k != to ==> r[k] == ShiftedAt(s, from, to, to, k)
    ensures r == Moved(s, from, to)
  {
    forall k | 0 <= k < |s| ensures r[k] == Moved(s, from, to)[k] {
      MovedAt(s, from, to, k);
    }
  }

  /** CDK `moveItemInArray`: clamp both indices, then shift the items between
      them one step and drop the moved item into its new slot. */
  method MoveItemInArray(a: array<int>, fromIndex: int, toIndex: int)
    modifies a
    ensures a.Length > 0 ==> a[..] == Moved(old(a[..]), Clamp(fromIndex, a.Length - 1), Clamp(toIndex, a.Length - 1))
    ensures a.Length == 0 || Clamp(fromIndex, a.Length - 1) == Clamp(toIndex, a.Length - 1) ==> a[..] == old(a[..])
  {
    var from := Clamp(fromIndex, a.Length - 1);
    var to := Clamp(toIndex, a.Length - 1);
    if from == to {
      if a.Length > 0 {
        assert Moved(a[..], from, to) == a[..];
      }
      return;
    }
    ghost var s := a[..];
    var target := a[from];
    ShiftBetween(a, from, to);
    a[to] := target;
    ShiftThenPlace(s, from, to, a[..]);
  }

  /** The loop of `moveItemInArray`: walking from `from` towards `to`, each slot
      takes its neighbour's item. */
  method ShiftBetween(a: array<int>, from: int, to: int)
    requires 0 <= from < a.Length && 0 <= to < a.Length && from != to
    modifies a
    ensures forall k :: 0 <= k < a.Length ==> a[k] == ShiftedAt(old(a[..]), from, to, to, k)
  {
    ghost var s := a[..];
    var delta := if to < from then -1 else 1;
    var i := from;
    while i != to
      invariant from < to ==> from <= i <= to
      invariant to < from ==> to <= i <= from
      invariant forall k :: 0 <= k < a.Length ==> a[k] == ShiftedAt(s, from, to, i, k)
      decreases if from < to then to - i else i - to
    {
      ShiftStep(s, from, to, i, delta);
      a[i] := a[i + delta];
      i := i + delta;
    }
  }

  // ------------------------------------------------------------ the page

  /** Which displayed list a move handler is given: the main list, or the
      children of one tree item. */
  datatype Shown = MainList | ChildrenOf(parent: int)

  /** The admin page state this model tracks: the main categories shown, the
      tree items behind them, and the requests and refreshes the page issues. */
  class AdminPage {
    var mainCategories: seq<int>
    var treeItems: map<int, TreeItem>
    /** order batches sent to the backend, oldest first */
    var sentBatches: seq<seq<OrderUpdate>>
    /** delete requests sent to the backend, oldest first */
    var deleteRequests: seq<int>
    /** number of `refreshData` calls */
    var refreshes: nat

    constructor()
      ensures mainCategories == [] && treeItems == map[]
      ensures sentBatches == [] && deleteRequests == [] && refreshes == 0
    {
      mainCategories := [];
      treeItems := map[];
      sentBatches := [];
      deleteRequests := [];
      refreshes := 0;
    }

    /** `updateCategoryOrder` / `updateSubcategoryOrder`: send the dense batch
        of the list as it now stands. */
    method UpdateOrder(list: array<int>)
      modifies this
      ensures sentBatches == old(sentBatches) + [OrderUpdates(list[..])]
      ensures mainCategories == old(mainCategories) && treeItems == old(treeItems)
      ensures deleteRequests == old(deleteRequests) && refreshes == old(refreshes)
    {
      sentBatches := sentBatches + [OrderUpdates(list[..])];
    }

    /** The answer to an order batch: only a failure reloads, to restore the
        stored order; on success the locally reordered list stays. */
    method OnOrderResponse(ok: bool)
      modifies this
      ensures refreshes == if ok then old(refreshes) else old(refreshes) + 1
      ensures mainCategories == old(mainCategories) && treeItems == old(treeItems)
      ensures sentBatches == old(sentBatches) && deleteRequests == old(deleteRequests)
    {
      if !ok {
        refreshes := refreshes + 1;
      }
    }

    /** The list `which` names is, as the page shows it, the sequence `s`. */
    predicate Displays(which: Shown, s: seq<int>)
      reads this
    {
      match which
      case MainList => mainCategories == s
      case ChildrenOf(p) => p in treeItems && treeItems[p].children == s
    }

    /** The template hands the move handlers the very array the page shows (the
        emitted main list, or an item's `children`), so a reorder in place is a
        reorder of the page's list: `Relink` writes the array's contents back to
        the list it aliases. */
    method Relink(which: Shown, s: seq<int>)
      requires which.ChildrenOf? ==> which.parent in treeItems
      modifies this
      ensures Displays(which, s)
      ensures which.MainList? ==> treeItems == old(treeItems)
      ensures which.ChildrenOf? ==> mainCategories == old(mainCategories)
      ensures which.ChildrenOf? ==>
        treeItems == old(treeItems)[which.parent := old(treeItems)[which.parent].(children := s)]
      ensures sentBatches == old(sentBatches) && deleteRequests == old(deleteRequests) && refreshes == old(refreshes)
    {
      match which
      case MainList =>
        mainCategories := s;
      case ChildrenOf(p) =>
        treeItems := treeItems[p := treeItems[p].(children := s)];
    }

    /** `moveCategoryUp` and `moveSubcategoryUp`: swap with the previous item and
        send the new order; at the top nothing happens.  The displayed list is
        the array, so it shows the new order, and no other list changes. */
    method MoveUp(list: array<int>, which: Shown, index: int)
      requires 0 <= index < list.Length
      requires Displays(which, list[..])
      modifies this, list
      ensures index > 0 ==>
        list[..] == Swap(old(list[..]), index - 1, index) && sentBatches == old(sentBatches) + [OrderUpdates(list[..])]
      ensures index == 0 ==> list[..] == old(list[..]) && sentBatches == old(sentBatches)
      ensures Displays(which, list[..])
      ensures which.MainList? ==> treeItems == old(treeItems)
      ensures which.ChildrenOf? ==> mainCategories == old(mainCategories)
      ensures which.ChildrenOf? ==>
        treeItems == old(treeItems)[which.parent := old(treeItems)[which.parent].(children := list[..])]
      ensures deleteRequests == old(deleteRequests) && refreshes == old(refreshes)
    {
      if index > 0 {
        list[index], list[index - 1] := list[index - 1], list[index];
        Relink(which, list[..]);
        UpdateOrder(list);
      } else if which.ChildrenOf? {
        assert old(treeItems)[which.parent := old(treeItems)[which.parent].(children := list[..])] == old(treeItems);
      }
    }

    /** `moveCategoryDown` and `moveSubcategoryDown`: swap with the next item and
        send the new order; at the bottom nothing happens. */
    method MoveDown(list: array<int>, which: Shown, index: int)
      requires 0 <= index < list.Length
      requires Displays(which, list[..])
      modifies this, list
      ensures index < list.Length - 1 ==>
        list[..] == Swap(old(list[..]), index, index + 1) && sentBatches == old(sentBatches) + [OrderUpdates(list[..])]
      ensures index == list.Length - 1 ==> list[..] == old(list[..]) && sentBatches == old(sentBatches)
      ensures Displays(which, list[..])
      ensures which.MainList? ==> treeItems == old(treeItems)
      ensures which.ChildrenOf? ==> mainCategories == old(mainCategories)
      ensures which.ChildrenOf? ==>
        treeItems == old(treeItems)[which.parent := old(treeItems)[which.parent].(children := list[..])]
      ensures deleteRequests == old(deleteRequests) && refreshes == old(refreshes)
    {
      if index < list.Length - 1 {
        list[index], list[index + 1] := list[index + 1], list[index];
        Relink(which, list[..]);
        UpdateOrder(list);
      } else if which.ChildrenOf? {
        assert old(treeItems)[which.parent := old(treeItems)[which.parent].(children := list[..])] == old(treeItems);
      }
    }

    /** `onCategoryDrop` and `onSubcategoryDrop`: a drop onto the same index does
        nothing; any other drop relocates the item in the displayed list and
        sends the new order. */
    method OnDrop(list: array<int>, which: Shown, previousIndex: int, currentIndex: int)
      requires Displays(which, list[..])
      modifies this, list
      ensures previousIndex == currentIndex ==> list[..] == old(list[..]) && sentBatches == old(sentBatches)
      ensures previousIndex != currentIndex && list.Length > 0 ==>
        list[..] == Moved(old(list[..]), Clamp(previousIndex, list.Length - 1), Clamp(currentIndex, list.Length - 1))
      ensures previousIndex != currentIndex ==> sentBatches == old(sentBatches) + [OrderUpdates(list[..])]
      ensures Displays(which, list[..])
      ensures which.MainList? ==> treeItems == old(treeItems)
      ensures which.ChildrenOf? ==> mainCategories == old(mainCategories)
      ensures which.ChildrenOf? ==>
        treeItems == old(treeItems)[which.parent := old(treeItems)[which.parent].(children := list[..])]
      ensures deleteRequests == old(deleteRequests) && refreshes == old(refreshes)
    {
      if previousIndex != currentIndex {
        MoveItemInArray(list, previousIndex, currentIndex);
        Relink(which, list[..]);
        UpdateOrder(list);
      } else if which.ChildrenOf? {
        assert old(treeItems)[which.parent := old(treeItems)[which.parent].(children := list[..])] == old(treeItems);
      }
    }

    /** `deleteCategory`: nothing is sent unless the user confirms. */
    method DeleteCategory(id: int, confirmed: bool)
      modifies this
      ensures deleteRequests == if confirmed then old(deleteRequests) + [id] else old(deleteRequests)
      ensures mainCategories == old(mainCategories) && treeItems == old(treeItems)
      ensures sentBatches == old(sentBatches) && refreshes == old(refreshes)
    {
      if confirmed {
        deleteRequests := deleteRequests + [id];
      }
    }

    /** The answer to a delete: only a success reloads. */
    method OnDeleteResponse(ok: bool)
      modifies this
      ensures refreshes == if ok then old(refreshes) + 1 else old(refreshes)
      ensures mainCategories == old(mainCategories) && treeItems == old(treeItems)
      ensures sentBatches == old(sentBatches) && deleteRequests == old(deleteRequests)
    {
      if ok {
        refreshes := refreshes + 1;
      }
    }

    /** `toggleCategory`: flip one item's `expanded` flag. */
    method ToggleCategory(id: int)
      requires id in treeItems
      modifies this
      ensures treeItems == old(treeItems)[id := old(treeItems)[id].(expanded := !old(treeItems)[id].expanded)]
      ensures mainCategories == old(mainCategories)
      ensures sentBatches == old(sentBatches) && deleteRequests == old(deleteRequests) && refreshes == old(refreshes)
    {
      treeItems := treeItems[id := treeItems[id].(expanded := !treeItems[id].expanded)];
    }

    /** One emission of `categoryTree$`: a failed load shows nothing; otherwise
        thumbnails are rewritten, the tree is built and its roots are kept when
        `level === 0 || !parent_id`. */
    method LoadCategoryTree(response: Option<seq<Category>>)
      modifies this
      ensures response.None? ==> mainCategories == []
      ensures response.Some? ==>
        var cats := WithConvertedThumbnails(response.value);
        treeItems.Keys == Lookup(cats).Keys
        && (forall id :: id in treeItems ==> treeItems[id] == BuiltItem(cats, id))
        && mainCategories == MainFilter(TreeRoots(cats), Lookup(cats))
      ensures sentBatches == old(sentBatches) && deleteRequests == old(deleteRequests) && refreshes == old(refreshes)
    {
      if response.None? {
        mainCategories := [];
        return;
      }
      var cats := WithConvertedThumbnails(response.value);
      var tree, items := BuildCategoryTree(cats);
      treeItems := items;
      mainCategories := MainFilter(tree, Lookup(cats));
    }
  }

  /** `categories.map(...)`: a truthy thumbnail goes through `convertImageUrl`. */
  function WithConvertedThumbnails(cats: seq<Category>): (r: seq<Category>)
    ensures |r| == |cats|
    ensures forall i :: 0 <= i < |cats| ==> r[i] == cats[i].(thumbnailUrl := ConvertImageUrl(cats[i].thumbnailUrl))
  {
    seq(|cats|, i requires 0 <= i < |cats| => cats[i].(thumbnailUrl := ConvertImageUrl(cats[i].thumbnailUrl)))
  }

  /** `tree.filter(cat => cat.level === 0 || !cat.parent_id)` */
  function MainFilter(tree: seq<int>, L: map<int, Category>): (r: seq<int>)
  {
    if tree == [] then []
    else
      var id := tree[|tree| - 1];
      MainFilter(tree[..|tree| - 1], L)
        + (if id in L && (L[id].level == 0 || !Truthy(L[id].parentId)) then [id] else [])
  }

  /** The main list keeps exactly the roots of level 0 or without a parent, in
      the order of the sorted root list. */
  lemma {:induction false} MainFilterMembers(tree: seq<int>, L: map<int, Category>)
    ensures forall id :: id in MainFilter(tree, L) <==>
              id in tree && id in L && (L[id].level == 0 || !Truthy(L[id].parentId))
    ensures |MainFilter(tree, L)| <= |tree|
  {
    if tree != [] {
      MainFilterMembers(tree[..|tree| - 1], L);
      assert tree == tree[..|tree| - 1] + [tree[|tree| - 1]];
    }
  }
}
