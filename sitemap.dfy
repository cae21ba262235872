/** The sitemap page (frontend/src/app/components/sitemap/sitemap.component.ts):
    the entry list (home page, categories, published posts) and the XML text of
    the Sitemaps protocol 0.9 of sitemaps.org written from it.  The date
    formatting (`toISOString().split('T')[0]`) is the parameter `day`, and the
    current date is `today`. */
module Sitemap {
  import opened Text
  import opened Models
  import opened Slugs

  /** `SitemapUrl` */
  datatype SitemapUrl = SitemapUrl(loc: string, lastmod: string, changefreq: string, priority: string)

  const BaseUrl := "https://yourdomain.com"
  const CategoryPath := "/category/"
  const PostPath := "/post/"
  const Weekly := "weekly"
  const Monthly := "monthly"
  const HomePriority := "1.0"
  const CategoryPriority := "0.8"
  const PostPriority := "0.6"

  function HomeEntry(today: string): SitemapUrl {
    SitemapUrl(BaseUrl, today, Weekly, HomePriority)
  }

  function CategoryEntry(c: Category, day: string -> string, today: string): SitemapUrl {
    SitemapUrl(BaseUrl + CategoryPath + c.slug, if c.updatedAt != "" then day(c.updatedAt) else today, Weekly, CategoryPriority)
  }

  function PostEntry(p: Post, day: string -> string): SitemapUrl {
    SitemapUrl(BaseUrl + PostPath + IntToDecimal(p.id),
               if p.updatedAt != "" then day(p.updatedAt) else day(p.createdAt), Monthly, PostPriority)
  }

  predicate IsPublished(p: Post) { p.published }

  function CategoryEntries(categories: seq<Category>, day: string -> string, today: string): (r: seq<SitemapUrl>)
    ensures |r| == |categories|
  {
    if categories == [] then []
    else CategoryEntries(categories[..|categories| - 1], day, today) + [CategoryEntry(categories[|categories| - 1], day, today)]
  }

  lemma {:induction false} CategoryEntryAt(categories: seq<Category>, day: string -> string, today: string, i: nat)
    requires i < |categories|
    ensures CategoryEntries(categories, day, today)[i] == CategoryEntry(categories[i], day, today)
    decreases |categories|
  {
    var init := categories[..|categories| - 1];
    if i < |init| {
      CategoryEntryAt(init, day, today, i);
    }
  }

  function PostEntries(posts: seq<Post>, day: string -> string): (r: seq<SitemapUrl>)
    ensures |r| == |posts|
  {
    if posts == [] then []
    else PostEntries(posts[..|posts| - 1], day) + [PostEntry(posts[|posts| - 1], day)]
  }

  lemma {:induction false} PostEntryAt(posts: seq<Post>, day: string -> string, i: nat)
    requires i < |posts|
    ensures PostEntries(posts, day)[i] == PostEntry(posts[i], day)
    decreases |posts|
  {
    var init := posts[..|posts| - 1];
    if i < |init| {
      PostEntryAt(init, day, i);
    }
  }

  /** The entry list: the home page, every category in input order, then the
      published posts in input order. */
  function SitemapUrls(categories: seq<Category>, posts: seq<Post>, day: string -> string, today: string): seq<SitemapUrl> {
    [HomeEntry(today)] + CategoryEntries(categories, day, today) + PostEntries(Filter(posts, IsPublished), day)
  }

  /** The home page comes first. */
  lemma HomeFirst(categories: seq<Category>, posts: seq<Post>, day: string -> string, today: string)
    ensures |SitemapUrls(categories, posts, day, today)| == 1 + |categories| + |Filter(posts, IsPublished)|
    ensures SitemapUrls(categories, posts, day, today)[0] == HomeEntry(today)
  {
  }

  /** Category `i` is entry `1 + i`. */
  lemma CategoryAt(categories: seq<Category>, posts: seq<Post>, day: string -> string, today: string, i: nat)
    requires i < |categories|
    ensures 1 + i < |SitemapUrls(categories, posts, day, today)|
    ensures SitemapUrls(categories, posts, day, today)[1 + i] == CategoryEntry(categories[i], day, today)
  {
    var cs := CategoryEntries(categories, day, today);
    MiddleAt(HomeEntry(today), cs, PostEntries(Filter(posts, IsPublished), day), i);
    CategoryEntryAt(categories, day, today, i);
  }

  /** Published post `k` is entry `1 + |categories| + k`. */
  lemma PostAt(categories: seq<Category>, posts: seq<Post>, day: string -> string, today: string, k: nat)
    requires k < |Filter(posts, IsPublished)|
    ensures 1 + |categories| + k < |SitemapUrls(categories, posts, day, today)|
    ensures SitemapUrls(categories, posts, day, today)[1 + |categories| + k] == PostEntry(Filter(posts, IsPublished)[k], day)
  {
    var ps := PostEntries(Filter(posts, IsPublished), day);
    LastAt(HomeEntry(today), CategoryEntries(categories, day, today), ps, k);
    PostEntryAt(Filter(posts, IsPublished), day, k);
  }

  lemma MiddleAt<T>(h: T, a: seq<T>, b: seq<T>, i: nat)
    requires i < |a|
    ensures ([h] + a + b)[1 + i] == a[i]
  {
  }

  lemma LastAt<T>(h: T, a: seq<T>, b: seq<T>, k: nat)
    requires k < |b|
    ensures ([h] + a + b)[1 + |a| + k] == b[k]
  {
  }

  /** The list has one entry for the home page, one per category and one per
      published post, with the protocol priorities 1.0, 0.8 and 0.6. */
  lemma SitemapUrlsShape(categories: seq<Category>, posts: seq<Post>, day: string -> string, today: string)
    ensures var urls := SitemapUrls(categories, posts, day, today);
      |urls| == 1 + |categories| + |Filter(posts, IsPublished)|
      && urls[0].loc == BaseUrl && urls[0].priority == HomePriority
      && (forall i :: 0 <= i < |categories| ==>
            urls[1 + i].loc == BaseUrl + CategoryPath + categories[i].slug && urls[1 + i].priority == CategoryPriority)
      && (forall i :: 1 + |categories| <= i < |urls| ==> urls[i].priority == PostPriority)
  {
    var urls := SitemapUrls(categories, posts, day, today);
    HomeFirst(categories, posts, day, today);
    forall i | 0 <= i < |categories|
      ensures urls[1 + i].loc == BaseUrl + CategoryPath + categories[i].slug && urls[1 + i].priority == CategoryPriority
    {
      CategoryAt(categories, posts, day, today, i);
    }
    forall i | 1 + |categories| <= i < |urls| ensures urls[i].priority == PostPriority {
      PostAt(categories, posts, day, today, i - 1 - |categories|);
    }
  }

  /** Each post entry names a published post. */
  lemma PostEntriesArePublished(categories: seq<Category>, posts: seq<Post>, day: string -> string, today: string, i: nat)
    requires 1 + |categories| <= i < |SitemapUrls(categories, posts, day, today)|
    ensures exists p ::
      p in posts && p.published && SitemapUrls(categories, posts, day, today)[i].loc == BaseUrl + PostPath + IntToDecimal(p.id)
  {
    var published := Filter(posts, IsPublished);
    var k := i - 1 - |categories|;
    HomeFirst(categories, posts, day, today);
    PostAt(categories, posts, day, today, k);
    FilterMembers(posts, IsPublished);
    assert published[k] in published;
  }

  /** Each published post has an entry. */
  lemma PublishedPostsListed(categories: seq<Category>, posts: seq<Post>, day: string -> string, today: string, p: Post)
    requires p in posts && p.published
    ensures PostEntry(p, day) in SitemapUrls(categories, posts, day, today)
  {
    var published := Filter(posts, IsPublished);
    FilterMembers(posts, IsPublished);
    assert p in published;
    var k :| 0 <= k < |published| && published[k] == p;
    PostAt(categories, posts, day, today, k);
  }

  /** The builder of `generateSitemap`, pushing entries one at a time. */
  method BuildUrls(categories: seq<Category>, posts: seq<Post>, day: string -> string, today: string)
    returns (urls: seq<SitemapUrl>)
    ensures urls == SitemapUrls(categories, posts, day, today)
  {
    urls := [HomeEntry(today)];
    for i := 0 to |categories|
      invariant urls == [HomeEntry(today)] + CategoryEntries(categories[..i], day, today)
    {
      CategoryEntriesSnoc(categories, day, today, i);
      urls := urls + [CategoryEntry(categories[i], day, today)];
    }
    assert categories[..|categories|] == categories;
    var published := Filter(posts, IsPublished);
    var head := urls;
    for i := 0 to |published|
      invariant urls == head + PostEntries(published[..i], day)
    {
      PostEntriesSnoc(published, day, i);
      urls := urls + [PostEntry(published[i], day)];
    }
    assert published[..|published|] == published;
  }

  lemma CategoryEntriesSnoc(categories: seq<Category>, day: string -> string, today: string, i: nat)
    requires i < |categories|
    ensures CategoryEntries(categories[..i + 1], day, today)
      == CategoryEntries(categories[..i], day, today) + [CategoryEntry(categories[i], day, today)]
  {
    assert categories[..i + 1][..i] == categories[..i];
  }

  lemma PostEntriesSnoc(posts: seq<Post>, day: string -> string, i: nat)
    requires i < |posts|
    ensures PostEntries(posts[..i + 1], day) == PostEntries(posts[..i], day) + [PostEntry(posts[i], day)]
  {
    assert posts[..i + 1][..i] == posts[..i];
  }

  // ------------------------------------------------------------ the XML text

  const XmlDeclaration := "<?xml version=\"1.0\" encoding=\"UTF-8\"?>\n"
  const UrlsetOpen := "<urlset xmlns=\"http://www.sitemaps.org/schemas/sitemap/0.9\">\n"
  const Header := XmlDeclaration + UrlsetOpen
  const Footer := "</urlset>"

  const UrlOpen := "  <url>\n"
  const UrlClose := "  </url>\n"

  function LocLine(loc: string): string { "    <loc>" + loc + "</loc>\n" }
  function LastmodLine(lastmod: string): string { "    <lastmod>" + lastmod + "</lastmod>\n" }
  function ChangefreqLine(changefreq: string): string { "    <changefreq>" + changefreq + "</changefreq>\n" }
  function PriorityLine(priority: string): string { "    <priority>" + priority + "</priority>\n" }

  /** One `<url>` element: `<lastmod>` only when the entry has a date; `<loc>`,
      `<changefreq>` and `<priority>` always. */
  function Block(u: SitemapUrl): string {
    UrlOpen
    + LocLine(u.loc)
    + (if u.lastmod != "" then LastmodLine(u.lastmod) else "")
    + ChangefreqLine(u.changefreq)
    + PriorityLine(u.priority)
    + UrlClose
  }

  function Blocks(urls: seq<SitemapUrl>): string {
    if urls == [] then "" else Block(urls[0]) + Blocks(urls[1..])
  }

  function Xml(urls: seq<SitemapUrl>): string {
    Header + Blocks(urls) + Footer
  }

  /** The blocks of a list are the blocks of its parts, in order: one block per
      entry, in list order. */
  lemma {:induction false} BlocksConcat(a: seq<SitemapUrl>, b: seq<SitemapUrl>)
    ensures Blocks(a + b) == Blocks(a) + Blocks(b)
  {
    if a == [] {
      assert a + b == b;
    } else {
      assert (a + b)[1..] == a[1..] + b;
      BlocksConcat(a[1..], b);
    }
  }

  /** The document opens with the XML declaration and the `<urlset>` of the 0.9
      namespace and closes with `</urlset>`, whatever the entries. */
  lemma XmlFrame(urls: seq<SitemapUrl>)
    ensures StartsWith(Xml(urls), Header) && EndsWith(Xml(urls), Footer)
  {
    var x := Xml(urls);
    assert x[..|Header|] == Header;
    assert x[|x| - |Footer|..] == Footer;
  }

  /** `generateXml`, appending to the text entry by entry. */
  method GenerateXml(urls: seq<SitemapUrl>) returns (xml: string)
    ensures xml == Xml(urls)
  {
    xml := XmlDeclaration;
    xml := xml + UrlsetOpen;
    for i := 0 to |urls|
      invariant xml == Header + Blocks(urls[..i])
    {
      BlocksSnoc(urls, i);
      xml := AppendUrl(xml, urls[i]);
    }
    assert urls[..|urls|] == urls;
    xml := xml + Footer;
  }

  lemma BlocksSnoc(urls: seq<SitemapUrl>, i: nat)
    requires i < |urls|
    ensures Header + Blocks(urls[..i + 1]) == Header + Blocks(urls[..i]) + Block(urls[i])
  {
    assert urls[..i + 1] == urls[..i] + [urls[i]];
    BlocksConcat(urls[..i], [urls[i]]);
    assert Blocks([urls[i]]) == Block(urls[i]) by { assert [urls[i]][1..] == []; }
    Append(Header, Blocks(urls[..i]), Block(urls[i]));
  }

  /** The body of `generateXml`'s loop: the lines of one entry, with the
      `<lastmod>` line only when the entry has a date. */
  method AppendUrl(xml0: string, u: SitemapUrl) returns (xml: string)
    ensures xml == xml0 + Block(u)
  {
    var entry := UrlOpen + LocLine(u.loc);
    if u.lastmod != "" {
      entry := entry + LastmodLine(u.lastmod);
    } else {
      assert entry + "" == entry;
    }
    entry := entry + ChangefreqLine(u.changefreq) + PriorityLine(u.priority) + UrlClose;
    xml := xml0 + entry;
  }

  lemma Append(a: string, b: string, c: string)
    ensures a + b + c == a + (b + c)
  {
  }

  class Page {
    var sitemapXml: string

    constructor()
      ensures sitemapXml == ""
    {
      sitemapXml := "";
    }

    /** `generateSitemap` once both lists have arrived. */
    method GenerateSitemap(categories: seq<Category>, posts: seq<Post>, day: string -> string, today: string)
      modifies this
      ensures sitemapXml == Xml(SitemapUrls(categories, posts, day, today))
    {
      var urls := BuildUrls(categories, posts, day, today);
      sitemapXml := GenerateXml(urls);
    }
  }

  // ------------------------------------------------------------ escaping

  /** The characters the protocol requires to be written as entities. */
  predicate XmlSpecial(c: char) {
    c == '&' || c == '\'' || c == '"' || c == '<' || c == '>'
  }

  predicate NoXmlSpecial(s: string) {
    forall k :: 0 <= k < |s| ==> !XmlSpecial(s[k])
  }

  lemma NoXmlSpecialConcat(a: string, b: string)
    requires NoXmlSpecial(a) && NoXmlSpecial(b)
    ensures NoXmlSpecial(a + b)
  {
    forall k | 0 <= k < |a + b| ensures !XmlSpecial((a + b)[k]) {
      if k < |a| {
        assert (a + b)[k] == a[k];
      } else {
        assert (a + b)[k] == b[k - |a|];
      }
    }
  }

  lemma SlugTextPlain(s: string)
    requires IsSlugText(s)
    ensures NoXmlSpecial(s)
  {
    forall k | 0 <= k < |s| ensures !XmlSpecial(s[k]) {
      assert SlugChar(s[k]);
    }
  }

  lemma DecimalPlain(i: int)
    ensures NoXmlSpecial(IntToDecimal(i))
  {
    var d := NatToDecimal(if i < 0 then -i else i);
    assert forall k :: 0 <= k < |d| ==> IsDigit(d[k]);
    if i < 0 {
      NoXmlSpecialConcat("-", d);
    }
  }

  /** The fixed parts of every location: the base URL and the path words. */
  lemma FixedPartsPlain()
    ensures NoXmlSpecial(BaseUrl)
    ensures NoXmlSpecial(BaseUrl + CategoryPath) && NoXmlSpecial(BaseUrl + PostPath)
  {
    assert NoXmlSpecial(BaseUrl);
    NoXmlSpecialConcat(BaseUrl, CategoryPath);
    NoXmlSpecialConcat(BaseUrl, PostPath);
  }

  lemma CategoryLocPlain(c: Category, day: string -> string, today: string)
    requires IsSlugText(c.slug)
    ensures NoXmlSpecial(CategoryEntry(c, day, today).loc)
  {
    SlugTextPlain(c.slug);
    FixedPartsPlain();
    NoXmlSpecialConcat(BaseUrl + CategoryPath, c.slug);
  }

  lemma PostLocPlain(p: Post, day: string -> string)
    ensures NoXmlSpecial(PostEntry(p, day).loc)
  {
    DecimalPlain(p.id);
    FixedPartsPlain();
    NoXmlSpecialConcat(BaseUrl + PostPath, IntToDecimal(p.id));
  }

  /** `loc` is written as it is: for slugs made by the slug generators nothing
      needs escaping, as every location holds only the base URL, path words,
      slug characters and digits. */
  lemma GeneratedSlugsNeedNoEscaping(categories: seq<Category>, posts: seq<Post>, day: string -> string, today: string)
    requires forall c :: c in categories ==> IsSlugText(c.slug)
    ensures forall u :: u in SitemapUrls(categories, posts, day, today) ==> NoXmlSpecial(u.loc)
  {
    var urls := SitemapUrls(categories, posts, day, today);
    forall i | 0 <= i < |urls| ensures NoXmlSpecial(urls[i].loc) {
      LocPlainAt(categories, posts, day, today, i);
    }
  }

  lemma LocPlainAt(categories: seq<Category>, posts: seq<Post>, day: string -> string, today: string, i: nat)
    requires forall c :: c in categories ==> IsSlugText(c.slug)
    requires i < |SitemapUrls(categories, posts, day, today)|
    ensures NoXmlSpecial(SitemapUrls(categories, posts, day, today)[i].loc)
  {
    HomeFirst(categories, posts, day, today);
    if i == 0 {
      FixedPartsPlain();
    } else if i <= |categories| {
      assert categories[i - 1] in categories;
      CategoryLocPlainAt(categories, posts, day, today, i - 1);
    } else {
      PostLocPlainAt(categories, posts, day, today, i - 1 - |categories|);
    }
  }

  lemma CategoryLocPlainAt(categories: seq<Category>, posts: seq<Post>, day: string -> string, today: string, i: nat)
    requires i < |categories| && IsSlugText(categories[i].slug)
    ensures 1 + i < |SitemapUrls(categories, posts, day, today)|
    ensures NoXmlSpecial(SitemapUrls(categories, posts, day, today)[1 + i].loc)
  {
    CategoryAt(categories, posts, day, today, i);
    CategoryLocPlain(categories[i], day, today);
  }

  lemma PostLocPlainAt(categories: seq<Category>, posts: seq<Post>, day: string -> string, today: string, k: nat)
    requires k < |Filter(posts, IsPublished)|
    ensures 1 + |categories| + k < |SitemapUrls(categories, posts, day, today)|
    ensures NoXmlSpecial(SitemapUrls(categories, posts, day, today)[1 + |categories| + k].loc)
  {
    PostAt(categories, posts, day, today, k);
    PostLocPlain(Filter(posts, IsPublished)[k], day);
  }

  /** A slug holding '&' reaches the document unescaped. */
  lemma AmpersandSlugUnescaped(c: Category, day: string -> string, today: string)
    requires c.slug == "a&b"
    ensures '&' in SitemapUrls([c], [], day, today)[1].loc
  {
    var loc := SitemapUrls([c], [], day, today)[1].loc;
    assert loc == BaseUrl + CategoryPath + "a&b";
    assert loc[|loc| - 2] == '&';
  }
}
