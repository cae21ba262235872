/** Record shapes shared by the front end (frontend/src/app/models/models.ts) and
    the normalisation `DataService.getCategories` applies to every category the
    API returns. */
module Models {
  import opened Text

  /** A category exactly as the API may deliver it: every field the normalisation
      defaults is optional (`None` stands for a missing or `null` JSON field). */
  datatype ApiCategory = ApiCategory(
    id: int,
    name: string,
    slug: string,
    description: string,
    thumbnailUrl: string,
    categoryType: Option<string>,
    parentId: Option<int>,
    level: Option<int>,
    orderIndex: Option<int>,
    displayOrder: Option<int>,
    isActive: Option<bool>,
    metaTitle: Option<string>,
    metaDescription: Option<string>,
    metaKeywords: Option<string>,
    ogImageUrl: Option<string>,
    createdAt: string,
    updatedAt: string)

  /** The front end's `Category`.  `parentId == None` is `null`; the SEO fields are
      optional properties (`None` when the object does not carry them). */
  datatype Category = Category(
    id: int,
    name: string,
    slug: string,
    description: string,
    thumbnailUrl: string,
    categoryType: string,
    parentId: Option<int>,
    level: int,
    orderIndex: int,
    displayOrder: int,
    isActive: bool,
    metaTitle: Option<string>,
    metaDescription: Option<string>,
    metaKeywords: Option<string>,
    ogImageUrl: Option<string>,
    createdAt: string,
    updatedAt: string)

  /** A post as the front end sees it (only the fields the modelled code reads). */
  datatype Post = Post(
    id: int,
    title: string,
    imageUrl: string,
    categoryId: int,
    published: bool,
    createdAt: string,
    updatedAt: string)

  /** JavaScript truthiness of an optional number: `null`, absent and `0` are falsy. */
  predicate Truthy(o: Option<int>) {
    o.Some? && o.value != 0
  }

  /** `x || d` for an optional number. */
  function OrZero(o: Option<int>): (r: int)
    ensures Truthy(o) ==> r == o.value
    ensures !Truthy(o) ==> r == 0
  {
    if Truthy(o) then o.value else 0
  }

  /** `x || d` for an optional string. */
  function OrString(o: Option<string>, d: string): (r: string)
    ensures o.Some? && o.value != "" ==> r == o.value
    ensures o.None? || o.value == "" ==> r == d
  {
    if o.Some? && o.value != "" then o.value else d
  }

  /** The record normalisation inside `getCategories`, with the SEO fields of the
      API record carried over (see `NormalizeCategoryAsWritten` for the code as it
      stands, which drops them). */
  function NormalizeCategory(a: ApiCategory): (c: Category)
    ensures c.id == a.id && c.name == a.name && c.slug == a.slug
    ensures c.description == a.description && c.thumbnailUrl == a.thumbnailUrl
    ensures c.createdAt == a.createdAt && c.updatedAt == a.updatedAt
    // a missing or empty category_type becomes 'product', any other is kept
    ensures c.categoryType != ""
    ensures a.categoryType.None? || a.categoryType.value == "" ==> c.categoryType == "product"
    ensures a.categoryType.Some? && a.categoryType.value != "" ==> c.categoryType == a.categoryType.value
    // a falsy parent_id becomes null, a truthy one is kept
    ensures c.parentId.None? <==> !Truthy(a.parentId)
    ensures c.parentId.Some? ==> c.parentId == a.parentId && c.parentId.value != 0
    // falsy numbers become 0
    ensures Truthy(a.level) ==> c.level == a.level.value
    ensures !Truthy(a.level) ==> c.level == 0
    ensures Truthy(a.orderIndex) ==> c.orderIndex == a.orderIndex.value
    ensures !Truthy(a.orderIndex) ==> c.orderIndex == 0
    ensures Truthy(a.displayOrder) ==> c.displayOrder == a.displayOrder.value
    ensures !Truthy(a.displayOrder) ==> c.displayOrder == 0
    // is_active defaults to true only when the API leaves it out
    ensures a.isActive.None? ==> c.isActive
    ensures a.isActive.Some? ==> c.isActive == a.isActive.value
    // the SEO fields pass through
    ensures c.metaTitle == a.metaTitle && c.metaDescription == a.metaDescription
    ensures c.metaKeywords == a.metaKeywords && c.ogImageUrl == a.ogImageUrl
  {
    Category(
      a.id, a.name, a.slug, a.description, a.thumbnailUrl,
      OrString(a.categoryType, "product"),
      if Truthy(a.parentId) then a.parentId else None,
      OrZero(a.level), OrZero(a.orderIndex), OrZero(a.displayOrder),
      if a.isActive.Some? then a.isActive.value else true,
      a.metaTitle, a.metaDescription, a.metaKeywords, a.ogImageUrl,
      a.createdAt, a.updatedAt)
  }

  /** The normalisation exactly as written: the object literal lists no SEO
      field, so every normalised category comes out without them, whatever the
      API sent. */
  function NormalizeCategoryAsWritten(a: ApiCategory): (c: Category)
    ensures c.metaTitle.None? && c.metaDescription.None? && c.metaKeywords.None? && c.ogImageUrl.None?
    ensures c.(metaTitle := a.metaTitle, metaDescription := a.metaDescription,
               metaKeywords := a.metaKeywords, ogImageUrl := a.ogImageUrl) == NormalizeCategory(a)
  {
    NormalizeCategory(a).(metaTitle := None, metaDescription := None, metaKeywords := None, ogImageUrl := None)
  }

  /** `getCategories` as written: the normalisation applied element-wise, in
      order, so no fetched category carries an SEO field. */
  function GetCategories(api: seq<ApiCategory>): (cs: seq<Category>)
    ensures |cs| == |api|
    ensures forall i :: 0 <= i < |api| ==> cs[i] == NormalizeCategoryAsWritten(api[i])
    ensures forall i :: 0 <= i < |api| ==>
              cs[i].id == api[i].id && cs[i].metaTitle.None? && cs[i].metaDescription.None?
              && cs[i].metaKeywords.None? && cs[i].ogImageUrl.None?
  {
    seq(|api|, i requires 0 <= i < |api| => NormalizeCategoryAsWritten(api[i]))
  }

  /** `getCategories` with the corrected normalisation: the same list, except
      that every category keeps the SEO fields the API sent. */
  function GetCategoriesIntended(api: seq<ApiCategory>): (cs: seq<Category>)
    ensures |cs| == |api| == |GetCategories(api)|
    ensures forall i :: 0 <= i < |api| ==>
              cs[i].metaTitle == api[i].metaTitle && cs[i].metaDescription == api[i].metaDescription
              && cs[i].metaKeywords == api[i].metaKeywords && cs[i].ogImageUrl == api[i].ogImageUrl
    ensures forall i :: 0 <= i < |api| ==>
              cs[i].(metaTitle := None, metaDescription := None, metaKeywords := None, ogImageUrl := None)
              == GetCategories(api)[i]
  {
    seq(|api|, i requires 0 <= i < |api| => NormalizeCategory(api[i]))
  }
}
