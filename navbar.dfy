/** The site menu (frontend/src/app/components/navbar/navbar.component.ts): the
    active categories go through the tree builder and the level-0 roots make up
    the menu; icons are looked up by slug; the mobile menu opens and closes. */
module Navbar {
  import opened Text
  import opened Models
  import opened DataService
  import Home

  predicate IsActive(c: Category) { c.isActive }

  /** `tree.filter(cat => cat.level === 0)`, on root ids. */
  function AtLevelZero(L: map<int, Category>): int -> bool {
    id => id in L && L[id].level == 0
  }

  /** `mainCategories$`: the active categories, built into a tree, and the
      roots of level 0. A failed fetch is an empty list. */
  function Menu(cats: seq<Category>): seq<int> {
    var active := Filter(cats, IsActive);
    Filter(TreeRoots(active), AtLevelZero(Lookup(active)))
  }

  class Navbar {
    /** The menu's root ids, and the built items they and their children name. */
    var mainCategories: seq<int>
    var items: map<int, TreeItem>
    var isMobileMenuOpen: bool

    constructor()
      ensures mainCategories == [] && items == map[] && !isMobileMenuOpen
    {
      mainCategories := [];
      items := map[];
      isMobileMenuOpen := false;
    }

    /** The categories arrived (`None` when the request failed, which the
        pipeline turns into an empty list). */
    method OnCategories(response: Option<seq<Category>>)
      modifies this
      ensures var cats := if response.Some? then response.value else [];
              var active := Filter(cats, IsActive);
              mainCategories == Menu(cats)
              && items.Keys == Lookup(active).Keys
              && forall id :: id in items ==> items[id] == BuiltItem(active, id)
      ensures response.None? ==> mainCategories == []
      ensures isMobileMenuOpen == old(isMobileMenuOpen)
    {
      var categories := if response.Some? then response.value else [];
      var activeCategories := Filter(categories, IsActive);
      var tree, built := BuildCategoryTree(activeCategories);
      items := built;
      mainCategories := Filter(tree, AtLevelZero(Lookup(activeCategories)));
    }

    method ToggleMobileMenu()
      modifies this
      ensures isMobileMenuOpen == !old(isMobileMenuOpen)
      ensures mainCategories == old(mainCategories) && items == old(items)
    {
      isMobileMenuOpen := !isMobileMenuOpen;
    }

    method CloseMobileMenu()
      modifies this
      ensures !isMobileMenuOpen
      ensures mainCategories == old(mainCategories) && items == old(items)
    {
      isMobileMenuOpen := false;
    }
  }

  /** Every entry of the menu is an active category of level 0 taken from the
      input, and every item of the built tree, children included, is active. */
  lemma MenuIsActiveLevelZero(cats: seq<Category>)
    ensures var L := Lookup(Filter(cats, IsActive));
            forall id :: id in Menu(cats) ==> id in L && L[id].isActive && L[id].level == 0 && L[id] in cats
    ensures var L := Lookup(Filter(cats, IsActive));
            forall id :: id in L ==> L[id].isActive && L[id] in cats
  {
    var active := Filter(cats, IsActive);
    var L := Lookup(active);
    FilterMembers(cats, IsActive);
    FilterMembers(TreeRoots(active), AtLevelZero(L));
  }

  /** An active child whose parent is inactive is a root of the builder's
      tree, and is still left out of the menu, as its level is not 0. */
  lemma OrphanLeftOut(cats: seq<Category>, i: int)
    requires DistinctIds(cats) && 0 <= i < |cats|
    requires cats[i].isActive && cats[i].level != 0 && Truthy(cats[i].parentId)
    requires forall j :: 0 <= j < |cats| && cats[j].id == cats[i].parentId.value ==> !cats[j].isActive
    ensures cats[i].id in TreeRoots(Filter(cats, IsActive))
    ensures cats[i].id !in Menu(cats)
  {
    var c := cats[i];
    var active := Filter(cats, IsActive);
    var L := Lookup(active);
    FilterMembers(cats, IsActive);
    assert c in active;
    // the record the builder keeps for this id is this one
    var k :| 0 <= k < |active| && active[k] == c;
    assert c.id in L;
    assert L[c.id] in cats;
    var j :| 0 <= j < |cats| && cats[j] == L[c.id];
    assert j == i;
    // its parent is not among the active records
    assert c.parentId.value !in L;
    UnsortedRootsMembers(active, L);
    assert c.id in UnsortedRoots(active, L);
    assert c.id in multiset(TreeRoots(active));
    FilterMembers(TreeRoots(active), AtLevelZero(L));
  }

  /** `getCategoryIcon`: the icon of the slug in the table, or the default
      entry's 'category' for a slug the table does not list. */
  function CategoryIcon(slug: string): string {
    match slug
      case "gioi-thieu" => "info"
      case "du-an-thiet-ke" => "architecture"
      case "cong-trinh-thuc-te" => "business"
      case "dich-vu" => "handyman"
      case "tin-tuc" => "newspaper"
      case "tuyen-dung" => "work"
      case "lien-he" => "contact_page"
      case "biet-thu-hien-dai" => "home"
      case "nha-pho-hien-dai" => "apartment"
      case "van-phong" => "business_center"
      case "biet-thu" => "villa"
      case "nha-pho" => "home_work"
      case "thiet-ke" => "draw"
      case "thi-cong" => "construction"
      case "tu-van" => "support_agent"
      case "default" => "category"
      case _ => "category"
  }

  /** The icon is always a Material icon name, as the home page judges them. */
  lemma CategoryIconIsMatIcon(slug: string)
    ensures Home.IsMatIcon(Some(CategoryIcon(slug)))
  {
    match slug
      case "gioi-thieu" => WordIsMatIcon("info", 0);
      case "du-an-thiet-ke" => WordIsMatIcon("architecture", 3);
      case "cong-trinh-thuc-te" => WordIsMatIcon("business", 0);
      case "dich-vu" => WordIsMatIcon("handyman", 1);
      case "tin-tuc" => WordIsMatIcon("newspaper", 0);
      case "tuyen-dung" => WordIsMatIcon("work", 0);
      case "lien-he" => WordIsMatIcon("contact_page", 0);
      case "biet-thu-hien-dai" => WordIsMatIcon("home", 1);
      case "nha-pho-hien-dai" => WordIsMatIcon("apartment", 0);
      case "van-phong" => WordIsMatIcon("business_center", 0);
      case "biet-thu" => WordIsMatIcon("villa", 0);
      case "nha-pho" => WordIsMatIcon("home_work", 1);
      case "thiet-ke" => WordIsMatIcon("draw", 0);
      case "thi-cong" => WordIsMatIcon("construction", 0);
      case "tu-van" => WordIsMatIcon("support_agent", 0);
      case "default" => WordIsMatIcon("category", 0);
      case _ => WordIsMatIcon("category", 0);
  }

  /** A word without '/', not starting with '<' and lacking one letter of
      "http" is a Material icon name. */
  lemma WordIsMatIcon(v: string, k: int)
    requires v != "" && v[0] != '<' && '/' !in v && 0 <= k < 4 && "http"[k] !in v
    ensures Home.IsMatIcon(Some(v))
  {
    MissingCharNoContains(v, "/", 0);
    MissingCharNoContains(v, "http", k);
  }

  /** A text lacking one character of a pattern does not contain the pattern. */
  lemma MissingCharNoContains(s: string, p: string, k: int)
    requires 0 <= k < |p| && p[k] !in s
    ensures !Contains(s, p)
  {
    forall i ensures !OccursAt(s, p, i) {
      if 0 <= i && i + |p| <= |s| {
        assert s[i..i + |p|][k] == s[i + k] && s[i + k] in s;
      }
    }
    ContainsIff(s, p);
  }
}
