/** The category rules of the Go backend (backend/handlers/handlers.go): slug
    derivation, the create-time slug, level and order defaults with the
    unique-slug search, the update-time merge and type rules, the base URL
    behind a proxy and the checks on a replacement media upload. The
    `categories` table is a parameter: a sequence of rows, one per category. */
module Handlers {
  import opened Text
  import opened Slugs

  /** `models.Category` as the handlers read and write it. */
  datatype GoCategory = GoCategory(
    id: nat,
    name: string,
    slug: string,
    description: string,
    thumbnailUrl: string,
    categoryType: string,
    parentId: Option<nat>,
    level: int,
    orderIndex: int,
    displayOrder: int,
    isActive: bool,
    metaTitle: string,
    metaDescription: string,
    metaKeywords: string,
    ogImageUrl: string)

  /** An HTTP answer: success with a value, or a status code and error message. */
  datatype Outcome<T> = Ok(value: T) | Failed(status: int, message: string)

  // ------------------------------------------------------------ the table

  /** `SELECT ... FROM categories WHERE id = $1` */
  function FindRow(rows: seq<GoCategory>, id: nat): (r: Option<GoCategory>)
    ensures r.Some? ==> r.value in rows && r.value.id == id
    ensures r.None? ==> forall i :: 0 <= i < |rows| ==> rows[i].id != id
  {
    if rows == [] then None
    else if rows[0].id == id then Some(rows[0])
    else FindRow(rows[1..], id)
  }

  /** The slugs `SELECT COUNT(*) FROM categories WHERE slug = $1` finds. */
  function SlugsOf(rows: seq<GoCategory>): set<string> {
    set r | r in rows :: r.slug
  }

  /** `SELECT COALESCE(MAX(order_index), 0) FROM categories WHERE parent_id ...`:
      the largest order index among rows with the given parent (`IS NULL` for
      none), or 0 when there is no such row. */
  function MaxSiblingOrder(rows: seq<GoCategory>, parent: Option<nat>): int {
    if rows == [] then 0
    else
      var rest := MaxSiblingOrder(rows[1..], parent);
      if rows[0].parentId != parent then rest
      else if |rows| == 1 || !HasSibling(rows[1..], parent) || rows[0].orderIndex > rest then rows[0].orderIndex
      else rest
  }

  predicate HasSibling(rows: seq<GoCategory>, parent: Option<nat>) {
    exists i :: 0 <= i < |rows| && rows[i].parentId == parent
  }

  /** The default order index goes after every sibling; it is 1 without
      siblings, and otherwise one more than a sibling's order index. */
  lemma {:induction false} MaxSiblingOrderBounds(rows: seq<GoCategory>, parent: Option<nat>)
    ensures forall i :: 0 <= i < |rows| && rows[i].parentId == parent ==> rows[i].orderIndex <= MaxSiblingOrder(rows, parent)
    ensures !HasSibling(rows, parent) ==> MaxSiblingOrder(rows, parent) == 0
    ensures HasSibling(rows, parent) ==>
      exists i :: 0 <= i < |rows| && rows[i].parentId == parent && rows[i].orderIndex == MaxSiblingOrder(rows, parent)
  {
    if rows != [] {
      var tail := rows[1..];
      MaxSiblingOrderBounds(tail, parent);
      assert forall i :: 1 <= i < |rows| ==> rows[i] == tail[i - 1];
      if HasSibling(tail, parent) {
        var j :| 0 <= j < |tail| && tail[j].parentId == parent && tail[j].orderIndex == MaxSiblingOrder(tail, parent);
        assert rows[j + 1] == tail[j];
      }
      if !HasSibling(tail, parent) {
        assert forall i :: 1 <= i < |rows| ==> rows[i].parentId != parent;
      }
    }
  }

  // ------------------------------------------------------------ generateSlug

  /** `strings.ToLower`, rune by rune; the Unicode case mapping is the parameter. */
  function MapRunes(lower: char -> char, s: string): (r: string)
    ensures |r| == |s| && forall i :: 0 <= i < |s| ==> r[i] == lower(s[i])
  {
    seq(|s|, i requires 0 <= i < |s| => lower(s[i]))
  }

  /** `generateSlug` before its filter loop: lower-case, spaces to '-', and the
      characters `'".,!?` deleted. */
  function Dashed(lower: char -> char, title: string): string {
    var s := ReplaceAllChar(MapRunes(lower, title), ' ', "-");
    var s := ReplaceAllChar(s, '\'', "");
    var s := ReplaceAllChar(s, '"', "");
    var s := ReplaceAllChar(s, '.', "");
    var s := ReplaceAllChar(s, ',', "");
    var s := ReplaceAllChar(s, '!', "");
    ReplaceAllChar(s, '?', "")
  }

  /** What `generateSlug` computes: only `a-z`, `0-9` and '-' kept. */
  function GoSlug(lower: char -> char, title: string): string {
    Filter(Dashed(lower, title), SlugChar)
  }

  /** `generateSlug`: the replacements, then the rune loop that keeps the slug
      alphabet. */
  method GenerateSlug(lower: char -> char, title: string) returns (slug: string)
    ensures slug == GoSlug(lower, title)
  {
    var s := Dashed(lower, title);
    slug := "";
    var i := 0;
    while i < |s|
      invariant 0 <= i <= |s|
      invariant slug == Filter(s[..i], SlugChar)
    {
      FilterStep(s, i, SlugChar);
      if ('a' <= s[i] <= 'z') || ('0' <= s[i] <= '9') || s[i] == '-' {
        slug := slug + [s[i]];
      }
      i := i + 1;
    }
    assert s[..i] == s;
  }

  /** The five deletions are subsumed by the final filter: the slug is the
      lower-cased title with spaces made hyphens and everything outside
      `[a-z0-9-]` dropped. */
  lemma GoSlugSimple(lower: char -> char, title: string)
    ensures GoSlug(lower, title) == Filter(ReplaceAllChar(MapRunes(lower, title), ' ', "-"), SlugChar)
  {
    var s0 := ReplaceAllChar(MapRunes(lower, title), ' ', "-");
    var s1 := ReplaceAllChar(s0, '\'', "");
    var s2 := ReplaceAllChar(s1, '"', "");
    var s3 := ReplaceAllChar(s2, '.', "");
    var s4 := ReplaceAllChar(s3, ',', "");
    var s5 := ReplaceAllChar(s4, '!', "");
    FilterAfterDelete(s5, '?', SlugChar);
    FilterAfterDelete(s4, '!', SlugChar);
    FilterAfterDelete(s3, ',', SlugChar);
    FilterAfterDelete(s2, '.', SlugChar);
    FilterAfterDelete(s1, '"', SlugChar);
    FilterAfterDelete(s0, '\'', SlugChar);
  }

  /** The output alphabet is `[a-z0-9-]`. */
  lemma GoSlugAlphabet(lower: char -> char, title: string)
    ensures IsSlugText(GoSlug(lower, title))
  {
    GoSlugSimple(lower, title);
    FilterChars(ReplaceAllChar(MapRunes(lower, title), ' ', "-"), SlugChar);
  }

  /** A space between two words becomes a hyphen between their slugs. */
  lemma GoSlugSpace(lower: char -> char, a: string, b: string)
    requires lower(' ') == ' '
    ensures GoSlug(lower, a + " " + b) == GoSlug(lower, a) + "-" + GoSlug(lower, b)
  {
    var la, lb := MapRunes(lower, a), MapRunes(lower, b);
    var ra, rb := ReplaceAllChar(la, ' ', "-"), ReplaceAllChar(lb, ' ', "-");
    assert MapRunes(lower, a + " " + b) == la + " " + lb;
    assert ReplaceAllChar(la + " " + lb, ' ', "-") == ra + "-" + rb by {
      ReplaceAllCharConcat(la + " ", lb, ' ', "-");
      ReplaceAllCharConcat(la, " ", ' ', "-");
      assert ReplaceAllChar(" ", ' ', "-") == "-";
    }
    assert Filter(ra + "-" + rb, SlugChar) == Filter(ra, SlugChar) + "-" + Filter(rb, SlugChar) by {
      FilterConcat(ra + "-", rb, SlugChar);
      FilterConcat(ra, "-", SlugChar);
      assert Filter("-", SlugChar) == "-";
    }
    GoSlugSimple(lower, a + " " + b);
    GoSlugSimple(lower, a);
    GoSlugSimple(lower, b);
  }

  /** Slugging a slug changes nothing, as lower-casing leaves `[a-z0-9-]` alone. */
  lemma GoSlugIdempotent(lower: char -> char, title: string)
    requires forall c :: SlugChar(c) ==> lower(c) == c
    ensures GoSlug(lower, GoSlug(lower, title)) == GoSlug(lower, title)
  {
    var slug := GoSlug(lower, title);
    GoSlugAlphabet(lower, title);
    GoSlugSimple(lower, slug);
    assert MapRunes(lower, slug) == slug;
    assert ' ' !in slug;
    FilterAll(slug, SlugChar);
  }

  // ------------------------------------------------------------ CreateCategory

  /** The n-th candidate of the unique-slug search, `fmt.Sprintf("%s-%d", slug, n)`. */
  function Candidate(slug: string, n: nat): string {
    slug + "-" + NatToDecimal(n)
  }

  lemma CandidateInjective(slug: string, m: nat, n: nat)
    requires Candidate(slug, m) == Candidate(slug, n)
    ensures m == n
  {
    var k := |slug| + 1;
    assert Candidate(slug, m)[k..] == NatToDecimal(m);
    assert Candidate(slug, n)[k..] == NatToDecimal(n);
    NatToDecimalInjective(m, n);
  }

  /** `r` is what the search settles on: the slug itself when free, otherwise
      the first free candidate `slug-1`, `slug-2`, ... */
  ghost predicate FirstFree(slug: string, taken: set<string>, r: string) {
    (slug !in taken && r == slug)
    || (slug in taken
        && exists n: nat :: n >= 1 && r == Candidate(slug, n) && r !in taken && Tried(slug, n) <= taken)
  }

  /** The search result is never taken, keeps a free slug, and is determined
      by the slug and the taken set. */
  lemma FirstFreeProperties(slug: string, taken: set<string>, r: string, r': string)
    requires FirstFree(slug, taken, r) && FirstFree(slug, taken, r')
    ensures r !in taken
    ensures slug !in taken ==> r == slug
    ensures r == r'
  {
    if slug in taken {
      var n: nat :| n >= 1 && r == Candidate(slug, n) && r !in taken && Tried(slug, n) <= taken;
      var n': nat :| n' >= 1 && r' == Candidate(slug, n') && r' !in taken && Tried(slug, n') <= taken;
      // each is free, and every earlier candidate is taken
      FreeNotBefore(slug, taken, n, n');
      FreeNotBefore(slug, taken, n', n);
    }
  }

  /** A free candidate is not among those tried before the n-th. */
  lemma FreeNotBefore(slug: string, taken: set<string>, n: nat, m: nat)
    requires Tried(slug, n) <= taken && m >= 1 && Candidate(slug, m) !in taken
    ensures n <= m
  {
    if m < n {
      assert false;
    }
  }

  /** The candidates tried before the n-th. */
  ghost function Tried(slug: string, n: nat): set<string> {
    set j: nat | 1 <= j < n :: Candidate(slug, j)
  }

  /** Each new candidate differs from every one tried before it. */
  lemma TriedNext(slug: string, n: nat)
    requires n >= 1
    ensures Candidate(slug, n) !in Tried(slug, n)
    ensures Tried(slug, n + 1) == Tried(slug, n) + {Candidate(slug, n)}
  {
    forall j: nat | 1 <= j < n ensures Candidate(slug, j) != Candidate(slug, n) {
      if Candidate(slug, j) == Candidate(slug, n) {
        CandidateInjective(slug, j, n);
      }
    }
  }

  /** The counter loop: try `slug-1`, `slug-2`, ... until one is free. It ends
      because the candidates are distinct and only finitely many are taken. */
  method UniqueSlug(slug: string, taken: set<string>) returns (unique: string)
    requires slug in taken
    ensures FirstFree(slug, taken, unique)
  {
    var counter: nat := 1;
    unique := Candidate(slug, counter);
    assert Tried(slug, 1) == {};
    while unique in taken
      invariant counter >= 1 && unique == Candidate(slug, counter)
      invariant Tried(slug, counter) <= taken
      decreases |taken - Tried(slug, counter)|
    {
      TriedNext(slug, counter);
      assert taken - Tried(slug, counter + 1) < taken - Tried(slug, counter);
      counter := counter + 1;
      unique := Candidate(slug, counter);
    }
  }

  /** The request slug, or the slug derived from the name when it is empty. */
  function BaseSlug(lower: char -> char, request: GoCategory): string {
    if request.slug == "" then GoSlug(lower, request.name) else request.slug
  }

  /** The parent's slug and a hyphen in front, unless already there. */
  function PrefixedSlug(slug: string, parentSlug: string): string {
    if StartsWith(slug, parentSlug + "-") then slug else parentSlug + "-" + slug
  }

  /** Prefixing is never doubled: the result carries the prefix exactly as
      given, and prefixing again changes nothing. */
  lemma PrefixedSlugOnce(slug: string, parentSlug: string)
    ensures StartsWith(PrefixedSlug(slug, parentSlug), parentSlug + "-")
    ensures PrefixedSlug(PrefixedSlug(slug, parentSlug), parentSlug) == PrefixedSlug(slug, parentSlug)
    ensures StartsWith(slug, parentSlug + "-") ==> PrefixedSlug(slug, parentSlug) == slug
  {
    var p := parentSlug + "-";
    assert (p + slug)[..|p|] == p;
  }

  /** The slug before the uniqueness search: prefixed when there is a parent. */
  function CandidateSlug(lower: char -> char, request: GoCategory, parent: Option<GoCategory>): string {
    if parent.Some? then PrefixedSlug(BaseSlug(lower, request), parent.value.slug) else BaseSlug(lower, request)
  }

  /** `CreateCategory` once the body is bound: derive the slug, check the
      parent and set the level, make the slug unique, default the order index,
      and insert under the id the database assigns (`newId`). */
  method CreateCategory(rows: seq<GoCategory>, request: GoCategory, lower: char -> char, newId: nat)
    returns (r: Outcome<GoCategory>)
    ensures request.parentId.Some? && FindRow(rows, request.parentId.value).None? <==> r.Failed?
    ensures r.Failed? ==> r == Failed(400, "Invalid parent category")
    ensures r.Ok? ==>
      var parent := if request.parentId.Some? then FindRow(rows, request.parentId.value) else None;
      var c := r.value;
      c == request.(id := newId, slug := c.slug, level := c.level, orderIndex := c.orderIndex)
      && c.level == (if parent.Some? then parent.value.level + 1 else 0)
      && FirstFree(CandidateSlug(lower, request, parent), SlugsOf(rows), c.slug)
      && c.orderIndex == (if request.orderIndex == 0 then MaxSiblingOrder(rows, request.parentId) + 1 else request.orderIndex)
  {
    var category := request;
    if category.slug == "" {
      var s := GenerateSlug(lower, category.name);
      category := category.(slug := s);
    }
    var parent: Option<GoCategory> := None;
    if category.parentId.Some? {
      parent := FindRow(rows, category.parentId.value);
      if parent.None? {
        return Failed(400, "Invalid parent category");
      }
      category := category.(level := parent.value.level + 1);
      if !StartsWith(category.slug, parent.value.slug + "-") {
        category := category.(slug := parent.value.slug + "-" + category.slug);
      }
    } else {
      category := category.(level := 0);
    }
    assert category.slug == CandidateSlug(lower, request, parent);
    var taken := SlugsOf(rows);
    if category.slug in taken {
      var unique := UniqueSlug(category.slug, taken);
      category := category.(slug := unique);
    }
    if category.orderIndex == 0 {
      var maxOrder := MaxSiblingOrder(rows, category.parentId);
      category := category.(orderIndex := maxOrder + 1);
    }
    category := category.(id := newId);
    return Ok(category);
  }

  // ------------------------------------------------------------ UpdateCategory

  /** How the request's fields land on the stored row: empty strings keep the
      stored name, slug and type; description, thumbnail, the active flag and
      the four SEO fields are always overwritten, even with '' or false; the
      id and both order fields are never touched. */
  predicate MergedFields(stored: GoCategory, request: GoCategory, c: GoCategory) {
    c.name == (if request.name != "" then request.name else stored.name)
    && c.slug == (if request.slug != "" then request.slug else stored.slug)
    && c.categoryType == (if request.categoryType != "" then request.categoryType else stored.categoryType)
    && c.description == request.description && c.thumbnailUrl == request.thumbnailUrl
    && c.isActive == request.isActive
    && c.metaTitle == request.metaTitle && c.metaDescription == request.metaDescription
    && c.metaKeywords == request.metaKeywords && c.ogImageUrl == request.ogImageUrl
    && c.id == stored.id && c.orderIndex == stored.orderIndex && c.displayOrder == stored.displayOrder
  }

  /** The field-by-field merge at the start of `UpdateCategory`. */
  method MergeRequest(stored: GoCategory, request: GoCategory) returns (existing: GoCategory)
    ensures MergedFields(stored, request, existing)
    ensures existing.parentId == stored.parentId && existing.level == stored.level
  {
    existing := stored;
    if request.name != "" {
      existing := existing.(name := request.name);
    }
    if request.slug != "" {
      existing := existing.(slug := request.slug);
    }
    existing := existing.(description := request.description);
    existing := existing.(thumbnailUrl := request.thumbnailUrl);
    if request.categoryType != "" {
      existing := existing.(categoryType := request.categoryType);
    }
    existing := existing.(isActive := request.isActive);
    existing := existing.(metaTitle := request.metaTitle);
    existing := existing.(metaDescription := request.metaDescription);
    existing := existing.(metaKeywords := request.metaKeywords);
    existing := existing.(ogImageUrl := request.ogImageUrl);
  }

  /** `UpdateCategory` once the body is bound: load the stored row, merge the
      request into it, apply the parent and type rules and store it. The value
      is the row as stored afterwards. A "regular" category ends up a root; a
      parent in the request is checked and sets the level below it. */
  method UpdateCategory(rows: seq<GoCategory>, id: nat, request: GoCategory) returns (r: Outcome<GoCategory>)
    ensures FindRow(rows, id).None? ==> r == Failed(404, "Category not found")
    ensures FindRow(rows, id).Some? && request.parentId.Some? && FindRow(rows, request.parentId.value).None? ==>
              r == Failed(400, "Invalid parent category")
    ensures r.Failed? ==> FindRow(rows, id).None? || (request.parentId.Some? && FindRow(rows, request.parentId.value).None?)
    ensures r.Ok? ==> MergedFields(FindRow(rows, id).value, request, r.value)
    ensures r.Ok? && r.value.categoryType == "regular" ==> r.value.parentId.None? && r.value.level == 0
    ensures r.Ok? && r.value.categoryType != "regular" ==>
              r.value.parentId == (if request.parentId.Some? then request.parentId else FindRow(rows, id).value.parentId)
    ensures r.Ok? && r.value.categoryType != "regular" && request.parentId.Some? ==>
              r.value.level == FindRow(rows, request.parentId.value).value.level + 1
    ensures r.Ok? && r.value.categoryType != "regular" && request.parentId.None? ==>
              r.value.level == (if r.value.parentId.None? && r.value.categoryType == "parent" then 0 else FindRow(rows, id).value.level)
  {
    var found := FindRow(rows, id);
    if found.None? {
      return Failed(404, "Category not found");
    }
    var existing := MergeRequest(found.value, request);
    if request.parentId.Some? {
      var parent := FindRow(rows, request.parentId.value);
      if parent.None? {
        return Failed(400, "Invalid parent category");
      }
      existing := existing.(level := parent.value.level + 1);
      existing := existing.(parentId := request.parentId);
    }
    if existing.categoryType == "regular" {
      existing := existing.(level := 0);
      existing := existing.(parentId := None);
    }
    if existing.parentId.None? && existing.categoryType == "parent" {
      existing := existing.(level := 0);
    }
    return Ok(existing);
  }

  // ------------------------------------------------------------ getBaseURL

  /** `getBaseURL`: the scheme is "https" under TLS and "http" otherwise, a
      non-empty `X-Forwarded-Proto` replaces it; the host is the request's,
      a non-empty `X-Forwarded-Host` replaces it. Absent headers read as "". */
  method GetBaseUrl(tls: bool, requestHost: string, headers: map<string, string>) returns (url: string)
    ensures var proto := if "X-Forwarded-Proto" in headers then headers["X-Forwarded-Proto"] else "";
            var fwdHost := if "X-Forwarded-Host" in headers then headers["X-Forwarded-Host"] else "";
            var scheme := if proto != "" then proto else if tls then "https" else "http";
            var host := if fwdHost != "" then fwdHost else requestHost;
            url == scheme + "://" + host
  {
    var scheme := "http";
    if tls {
      scheme := "https";
    }
    var proto := if "X-Forwarded-Proto" in headers then headers["X-Forwarded-Proto"] else "";
    if proto != "" {
      scheme := proto;
    }
    var host := requestHost;
    var forwardedHost := if "X-Forwarded-Host" in headers then headers["X-Forwarded-Host"] else "";
    if forwardedHost != "" {
      host := forwardedHost;
    }
    url := scheme + "://" + host;
  }

  // ------------------------------------------------------------ ReplaceHomepageMedia

  function AllowedMediaTypes(mediaType: string): set<string> {
    if mediaType == "images" then {"image/jpeg", "image/jpg", "image/png", "image/gif", "image/webp"}
    else {"video/mp4", "video/avi", "video/mov", "video/wmv", "video/webm"}
  }

  function MaxMediaSize(mediaType: string): int {
    if mediaType == "images" then 5 * 1024 * 1024 else 50 * 1024 * 1024
  }

  datatype Upload = Upload(contentType: string, size: int)

  datatype MediaCheck = Accepted | Rejected(status: int, message: string)

  /** The checks `ReplaceHomepageMedia` makes before touching the disk, in the
      order it makes them; the first failure is the answer. */
  method CheckMediaReplacement(userId: nat, mediaType: string, upload: Option<Upload>) returns (r: MediaCheck)
    ensures userId == 0 ==> r == Rejected(401, "Unauthorized")
    ensures userId != 0 && mediaType != "images" && mediaType != "videos" ==>
              r == Rejected(400, "Invalid media type. Must be 'images' or 'videos'")
    ensures userId != 0 && (mediaType == "images" || mediaType == "videos") && upload.None? ==>
              r == Rejected(400, "No file uploaded")
    ensures userId != 0 && (mediaType == "images" || mediaType == "videos") && upload.Some?
            && upload.value.contentType !in AllowedMediaTypes(mediaType) ==>
              r == Rejected(400, "Invalid file type for " + mediaType)
    ensures userId != 0 && (mediaType == "images" || mediaType == "videos") && upload.Some?
            && upload.value.contentType in AllowedMediaTypes(mediaType) && upload.value.size > MaxMediaSize(mediaType) ==>
              r == Rejected(400, "File too large")
    ensures r == Accepted <==>
      userId != 0 && (mediaType == "images" || mediaType == "videos") && upload.Some?
      && upload.value.contentType in AllowedMediaTypes(mediaType) && upload.value.size <= MaxMediaSize(mediaType)
  {
    if userId == 0 {
      return Rejected(401, "Unauthorized");
    }
    if mediaType != "images" && mediaType != "videos" {
      return Rejected(400, "Invalid media type. Must be 'images' or 'videos'");
    }
    if upload.None? {
      return Rejected(400, "No file uploaded");
    }
    var allowedTypes: set<string>;
    var maxSize: int;
    if mediaType == "images" {
      allowedTypes := {"image/jpeg", "image/jpg", "image/png", "image/gif", "image/webp"};
      maxSize := 5 * 1024 * 1024;
    } else {
      allowedTypes := {"video/mp4", "video/avi", "video/mov", "video/wmv", "video/webm"};
      maxSize := 50 * 1024 * 1024;
    }
    if upload.value.contentType !in allowedTypes {
      return Rejected(400, "Invalid file type for " + mediaType);
    }
    if upload.value.size > maxSize {
      return Rejected(400, "File too large");
    }
    return Accepted;
  }
}
