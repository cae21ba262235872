/** The home page (frontend/src/app/pages/home/home.component.ts): the posts a
    visitor sees, the main categories with their children attached, the posts
    of one category, the carousel index and the Material-icon test. */
module Home {
  import opened Text
  import opened Models
  import Admin

  // ------------------------------------------------------------ posts

  /** A post after `latestPosts$` rewrites a truthy image URL for the proxy. */
  function ProcessedPost(p: Post): Post {
    if p.imageUrl != "" then p.(imageUrl := Admin.ConvertImageUrl(p.imageUrl)) else p
  }

  predicate IsPublished(p: Post) { p.published }

  /** `latestPosts$`: every post converted; a signed-in admin sees all of them,
      anybody else only the published ones. */
  function VisiblePosts(posts: seq<Post>, isAdmin: bool): seq<Post> {
    var processed := seq(|posts|, i requires 0 <= i < |posts| => ProcessedPost(posts[i]));
    if isAdmin then processed else Filter(processed, IsPublished)
  }

  /** Visitors see exactly the published posts, admins every post, each with its
      image URL converted and nothing else changed. */
  lemma VisiblePostsMembers(posts: seq<Post>, isAdmin: bool)
    ensures isAdmin ==> |VisiblePosts(posts, isAdmin)| == |posts|
    ensures !isAdmin ==> forall p :: p in VisiblePosts(posts, isAdmin) ==> p.published
    ensures forall p :: p in VisiblePosts(posts, isAdmin) ==>
              exists i :: 0 <= i < |posts| && p == ProcessedPost(posts[i]) && p.id == posts[i].id
    ensures forall i :: 0 <= i < |posts| && (isAdmin || posts[i].published) ==>
              ProcessedPost(posts[i]) in VisiblePosts(posts, isAdmin)
  {
    var processed := seq(|posts|, i requires 0 <= i < |posts| => ProcessedPost(posts[i]));
    FilterMembers(processed, IsPublished);
    forall p | p in VisiblePosts(posts, isAdmin)
      ensures exists i :: 0 <= i < |posts| && p == ProcessedPost(posts[i]) && p.id == posts[i].id
    {
      var i :| 0 <= i < |processed| && processed[i] == p;
    }
    forall i | 0 <= i < |posts| && (isAdmin || posts[i].published)
      ensures ProcessedPost(posts[i]) in VisiblePosts(posts, isAdmin)
    {
      assert processed[i] == ProcessedPost(posts[i]);
    }
  }

  /** `post.category_id === categoryId` */
  function InCategory(categoryId: int): Post -> bool {
    (p: Post) => p.categoryId == categoryId
  }

  /** `getCategoryPosts` before its date sort: the posts of one category. */
  function CategoryPosts(allPosts: seq<Post>, categoryId: int): seq<Post> {
    Filter(allPosts, InCategory(categoryId))
  }

  /** Only posts of the category, and all of them. */
  lemma CategoryPostsMembers(allPosts: seq<Post>, categoryId: int)
    ensures forall p :: p in CategoryPosts(allPosts, categoryId) <==> p in allPosts && p.categoryId == categoryId
  {
    FilterMembers(allPosts, InCategory(categoryId));
  }

  // ------------------------------------------------------------ main categories

  /** A main category with the children `mainCategories$` attaches to it. */
  datatype MainCategory = MainCategory(category: Category, children: seq<Category>)

  predicate IsMain(c: Category) { c.level == 0 }

  /** `category.parent_id === mainCategory.id` */
  function ChildOf(id: int): Category -> bool {
    (c: Category) => c.parentId == Some(id)
  }

  /** What `mainCategories$` yields: thumbnails converted, the level-0
      categories kept in order, each with every category whose parent is it. */
  function MainCategories(categories: seq<Category>): seq<MainCategory> {
    var processed := Admin.WithConvertedThumbnails(categories);
    var mainCategories := Filter(processed, IsMain);
    seq(|mainCategories|, k requires 0 <= k < |mainCategories| =>
      MainCategory(mainCategories[k], Filter(processed, ChildOf(mainCategories[k].id))))
  }

  /** `mainCategories$`: the level-0 categories, then a loop that assigns each
      its children. */
  method AttachChildren(categories: seq<Category>) returns (mains: seq<MainCategory>)
    ensures mains == MainCategories(categories)
  {
    var processed := Admin.WithConvertedThumbnails(categories);
    var mainCategories := Filter(processed, IsMain);
    mains := seq(|mainCategories|, k requires 0 <= k < |mainCategories| => MainCategory(mainCategories[k], []));
    for k := 0 to |mains|
      invariant |mains| == |mainCategories|
      invariant forall j :: 0 <= j < |mains| ==> mains[j].category == mainCategories[j]
      invariant forall j :: 0 <= j < k ==> mains[j].children == Filter(processed, ChildOf(mainCategories[j].id))
    {
      mains := mains[k := mains[k].(children := Filter(processed, ChildOf(mains[k].category.id)))];
    }
  }

  /** The main categories are exactly the level-0 ones, and each carries exactly
      the categories whose parent is it, all with converted thumbnails. */
  lemma MainCategoriesShape(categories: seq<Category>, m: MainCategory)
    requires m in MainCategories(categories)
    ensures m.category.level == 0 && m.category in Admin.WithConvertedThumbnails(categories)
    ensures forall c :: c in m.children <==> c in Admin.WithConvertedThumbnails(categories) && c.parentId == Some(m.category.id)
  {
    var processed := Admin.WithConvertedThumbnails(categories);
    var mainCategories := Filter(processed, IsMain);
    FilterMembers(processed, IsMain);
    var k :| 0 <= k < |mainCategories| && m == MainCategory(mainCategories[k], Filter(processed, ChildOf(mainCategories[k].id)));
    assert mainCategories[k] in mainCategories;
    FilterMembers(processed, ChildOf(mainCategories[k].id));
  }

  // ------------------------------------------------------------ carousel

  class Carousel {
    var homepageImages: seq<string>
    var currentSlideIndex: nat

    constructor()
      ensures homepageImages == [] && currentSlideIndex == 0
    {
      homepageImages := [];
      currentSlideIndex := 0;
    }

    /** The index points at an image. */
    predicate InRange()
      reads this
    {
      currentSlideIndex < |homepageImages|
    }

    /** `loadHomepageMedia`: the image list, converted, or empty on error; the
        index is left as it was. */
    method LoadHomepageMedia(response: Option<seq<string>>)
      modifies this
      ensures response.None? ==> homepageImages == []
      ensures response.Some? ==>
        |homepageImages| == |response.value|
        && forall i :: 0 <= i < |homepageImages| ==> homepageImages[i] == Admin.ConvertImageUrl(response.value[i])
      ensures currentSlideIndex == old(currentSlideIndex)
    {
      if response.None? {
        homepageImages := [];
      } else {
        var urls := response.value;
        homepageImages := seq(|urls|, i requires 0 <= i < |urls| => Admin.ConvertImageUrl(urls[i]));
      }
    }

    /** `nextSlide`: forward, wrapping to the first image. */
    method NextSlide()
      modifies this
      ensures homepageImages == old(homepageImages)
      ensures |homepageImages| > 0 ==> currentSlideIndex == (old(currentSlideIndex) + 1) % |homepageImages|
      ensures |homepageImages| == 0 ==> currentSlideIndex == old(currentSlideIndex)
      ensures old(InRange()) ==> InRange()
    {
      if |homepageImages| > 0 {
        currentSlideIndex := (currentSlideIndex + 1) % |homepageImages|;
      }
    }

    /** `previousSlide`: back, wrapping from the first image to the last. */
    method PreviousSlide()
      modifies this
      ensures homepageImages == old(homepageImages)
      ensures |homepageImages| > 0 && old(currentSlideIndex) == 0 ==> currentSlideIndex == |homepageImages| - 1
      ensures |homepageImages| > 0 && old(currentSlideIndex) != 0 ==> currentSlideIndex == old(currentSlideIndex) - 1
      ensures |homepageImages| == 0 ==> currentSlideIndex == old(currentSlideIndex)
      ensures old(InRange()) ==> InRange()
    {
      if |homepageImages| > 0 {
        currentSlideIndex := if currentSlideIndex == 0 then |homepageImages| - 1 else currentSlideIndex - 1;
      }
    }

    /** `goToSlide`: only an index of an image is taken. */
    method GoToSlide(index: int)
      modifies this
      ensures homepageImages == old(homepageImages)
      ensures 0 <= index < |homepageImages| ==> currentSlideIndex == index
      ensures !(0 <= index < |homepageImages|) ==> currentSlideIndex == old(currentSlideIndex)
      ensures old(InRange()) ==> InRange()
    {
      if index >= 0 && index < |homepageImages| {
        currentSlideIndex := index;
      }
    }
  }

  /** Among n images, one step forward followed by one step back returns to the
      same slide. */
  lemma {:induction false} NextThenPrevious(i: nat, n: nat)
    requires i < n
    ensures var j := (i + 1) % n; (if j == 0 then n - 1 else j - 1) == i
  {
  }

  // ------------------------------------------------------------ icons

  /** `isMatIcon`: a non-empty value that is neither a path, nor a URL, nor
      inline SVG. */
  predicate IsMatIcon(value: Option<string>) {
    value.Some? && value.value != ""
    && !Contains(value.value, "/") && !Contains(value.value, "http") && !StartsWith(value.value, "<svg")
  }

  /** URLs and paths are never taken for icon names. */
  lemma UrlsAreNotMatIcons(value: string)
    requires StartsWith(value, "http") || StartsWith(value, "/")
    ensures !IsMatIcon(Some(value))
  {
    if StartsWith(value, "http") {
      PrefixContains(value, "http");
    } else {
      PrefixContains(value, "/");
    }
  }
}
