/** The public article list
    (frontend/src/app/pages/article-list/article-list.component.ts): tag chips,
    the plain-text preview, and the filter and paging state that decides the
    query sent for each page. */
module ArticleList {
  import opened Text

  /** The fields of an article the list reads. */
  datatype Article = Article(id: int, slug: string, tags: Option<string>, content: string)

  // ------------------------------------------------------------ tags

  function TrimEach(pieces: seq<string>): (r: seq<string>)
    ensures |r| == |pieces|
    ensures forall i :: 0 <= i < |r| ==> r[i] == JsTrim(pieces[i])
  {
    seq(|pieces|, i requires 0 <= i < |pieces| => JsTrim(pieces[i]))
  }

  predicate NonEmpty(s: string) { s != "" }

  /** `getTags`: the comma-separated pieces, trimmed, without the empty ones;
      no tag list (or an empty one) gives no tags. */
  function GetTags(a: Article): seq<string> {
    match a.tags
    case None => []
    case Some(t) => if t == "" then [] else Filter(TrimEach(Split(t, ',')), NonEmpty)
  }

  /** A tag as a chip shows it: not empty, no surrounding white space, no comma. */
  predicate CleanTag(t: string) {
    t != "" && !IsJsSpace(t[0]) && !IsJsSpace(t[|t| - 1]) && ',' !in t
  }

  lemma TrimmedPieceClean(piece: string)
    requires ',' !in piece && JsTrim(piece) != ""
    ensures CleanTag(JsTrim(piece))
  {
    TrimKeepsOut(piece, IsJsSpace, ',');
  }

  /** Trimmed comma-free pieces that survive the filter are clean tags. */
  lemma TrimmedPiecesClean(pieces: seq<string>)
    requires forall i :: 0 <= i < |pieces| ==> ',' !in pieces[i]
    ensures forall t :: t in Filter(TrimEach(pieces), NonEmpty) ==> CleanTag(t)
  {
    var trimmed := TrimEach(pieces);
    FilterMembers(trimmed, NonEmpty);
    forall t | t in Filter(trimmed, NonEmpty) ensures CleanTag(t) {
      var i :| 0 <= i < |trimmed| && trimmed[i] == t;
      TrimmedPieceClean(pieces[i]);
    }
  }

  /** Every tag shown is clean. */
  lemma GetTagsClean(a: Article)
    ensures forall t :: t in GetTags(a) ==> CleanTag(t)
  {
    if a.tags.Some? && a.tags.value != "" {
      GetTagsOf(a);
      TrimmedPiecesClean(Split(a.tags.value, ','));
    }
  }

  /** A piece that is not blank survives trimming and filtering. */
  lemma TrimmedPieceKept(pieces: seq<string>, i: nat)
    requires i < |pieces| && JsTrim(pieces[i]) != ""
    ensures JsTrim(pieces[i]) in Filter(TrimEach(pieces), NonEmpty)
  {
    var trimmed := TrimEach(pieces);
    FilterMembers(trimmed, NonEmpty);
    assert trimmed[i] == JsTrim(pieces[i]);
  }

  /** Every piece of the text that is not blank is shown, trimmed. */
  lemma GetTagsComplete(a: Article, p: string)
    requires a.tags.Some? && p in Split(a.tags.value, ',') && JsTrim(p) != ""
    ensures JsTrim(p) in GetTags(a)
  {
    var pieces := Split(a.tags.value, ',');
    var i :| 0 <= i < |pieces| && pieces[i] == p;
    assert a.tags.value != "" by {
      SplitPiecesShorter(a.tags.value, ',');
      TrimSubsequence(p, IsJsSpace);
    }
    GetTagsOf(a);
    TrimmedPieceKept(pieces, i);
  }

  /** `getTags` of a non-empty tag text, unfolded. */
  lemma GetTagsOf(a: Article)
    requires a.tags.Some? && a.tags.value != ""
    ensures GetTags(a) == Filter(TrimEach(Split(a.tags.value, ',')), NonEmpty)
  {
  }

  lemma TrimEachClean(tags: seq<string>)
    requires forall i :: 0 <= i < |tags| ==> CleanTag(tags[i])
    ensures TrimEach(tags) == tags
    ensures Filter(tags, NonEmpty) == tags
  {
    forall i | 0 <= i < |tags| ensures JsTrim(tags[i]) == tags[i] {
      TrimOfEnds(tags[i], IsJsSpace);
    }
    FilterAll(tags, NonEmpty);
  }

  /** Tags written back as a comma-separated list come out as they were. */
  lemma TagsRoundTrip(id: int, slug: string, content: string, tags: seq<string>)
    requires tags != []
    requires forall i :: 0 <= i < |tags| ==> CleanTag(tags[i])
    ensures GetTags(Article(id, slug, Some(Join(tags, ',')), content)) == tags
  {
    var text := Join(tags, ',');
    JoinNonEmpty(tags, ',');
    GetTagsOf(Article(id, slug, Some(text), content));
    SplitOfJoin(tags, ',');
    TrimEachClean(tags);
  }

  lemma JoinNonEmpty(parts: seq<string>, c: char)
    requires |parts| >= 1 && parts[0] != ""
    ensures Join(parts, c) != ""
  {
    if |parts| > 1 {
      assert Join(parts, c)[0] == parts[0][0];
    }
  }

  // ------------------------------------------------------------ preview text

  /** Index of the first '>' at or after `i`, if any. */
  function FindClose(s: string, i: nat): (r: Option<nat>)
    ensures r.Some? ==> i <= r.value < |s| && s[r.value] == '>'
    ensures r.Some? ==> forall k :: i <= k < r.value ==> s[k] != '>'
    ensures r.None? ==> forall k :: i <= k < |s| ==> s[k] != '>'
    decreases |s| - i
  {
    if i >= |s| then None else if s[i] == '>' then Some(i) else FindClose(s, i + 1)
  }

  /** `content.replace(/<[^>]*>/g, '')`: every '<' with a '>' after it is
      removed together with everything up to the first such '>'; a '<' with no
      '>' after it stays, as does everything else. */
  function StripTags(s: string): (r: string)
    ensures |r| <= |s|
    decreases |s|
  {
    if s == [] then []
    else if s[0] == '<' && FindClose(s, 1).Some? then StripTags(s[FindClose(s, 1).value + 1..])
    else [s[0]] + StripTags(s[1..])
  }

  /** No '<' is followed, anywhere later, by a '>'. */
  predicate NoTag(s: string) {
    forall i, j :: 0 <= i < j < |s| && s[i] == '<' ==> s[j] != '>'
  }

  /** A character absent from the input is absent from the result. */
  lemma {:induction false} StripTagsKeepsOut(s: string, c: char)
    requires c !in s
    ensures c !in StripTags(s)
    decreases |s|
  {
    if s != [] {
      if s[0] == '<' && FindClose(s, 1).Some? {
        var rest := s[FindClose(s, 1).value + 1..];
        assert forall k :: 0 <= k < |rest| ==> rest[k] in s;
        StripTagsKeepsOut(rest, c);
      } else {
        assert forall k :: 0 <= k < |s[1..]| ==> s[1..][k] in s;
        StripTagsKeepsOut(s[1..], c);
      }
    }
  }

  /** The preview holds no tag: nothing between a '<' and a later '>' is left. */
  lemma {:induction false} StripTagsNoTag(s: string)
    ensures NoTag(StripTags(s))
    decreases |s|
  {
    if s != [] {
      if s[0] == '<' && FindClose(s, 1).Some? {
        StripTagsNoTag(s[FindClose(s, 1).value + 1..]);
      } else {
        var rest := StripTags(s[1..]);
        StripTagsNoTag(s[1..]);
        var r := StripTags(s);
        assert r == [s[0]] + rest;
        if s[0] == '<' {
          assert forall k :: 1 <= k < |s| ==> s[k] != '>';
          assert '>' !in s[1..];
          StripTagsKeepsOut(s[1..], '>');
        }
        forall i, j | 0 <= i < j < |r| && r[i] == '<' ensures r[j] != '>' {
          if i > 0 {
            assert rest[i - 1] == '<' && r[j] == rest[j - 1];
          }
        }
      }
    }
  }

  /** Text without a tag is left as it is. */
  lemma {:induction false} StripTagsOfPlain(s: string)
    requires NoTag(s)
    ensures StripTags(s) == s
    decreases |s|
  {
    if s != [] {
      if s[0] == '<' {
        assert forall k :: 1 <= k < |s| ==> s[k] != '>';
        assert FindClose(s, 1).None?;
      }
      assert NoTag(s[1..]) by {
        forall i, j | 0 <= i < j < |s[1..]| && s[1..][i] == '<' ensures s[1..][j] != '>' {
          assert s[i + 1] == '<';
        }
      }
      StripTagsOfPlain(s[1..]);
      assert s == [s[0]] + s[1..];
    }
  }

  /** Stripping twice strips nothing more. */
  lemma StripTagsIdempotent(s: string)
    ensures StripTags(StripTags(s)) == StripTags(s)
  {
    StripTagsNoTag(s);
    StripTagsOfPlain(StripTags(s));
  }

  const Ellipsis := "..."
  const DefaultPreviewLength := 150

  /** `substring(0, n)`: a negative end counts as 0 and one past the end as the end. */
  function Prefix(s: string, n: int): (r: string)
    ensures |r| == if n < 0 then 0 else if n > |s| then |s| else n
    ensures r == s[..|r|]
  {
    if n < 0 then "" else if n > |s| then s else s[..n]
  }

  /** `truncateContent`: no content gives no preview; otherwise the text
      without its tags, cut to `maxLength` characters followed by "..." when
      it is longer. */
  function TruncateContent(content: string, maxLength: int): (r: string)
    ensures content == "" ==> r == ""
    ensures content != "" && |StripTags(content)| <= maxLength ==> r == StripTags(content)
    ensures content != "" && |StripTags(content)| > maxLength ==>
      r == Prefix(StripTags(content), maxLength) + Ellipsis
    ensures |r| <= (if maxLength < 0 then 0 else maxLength) + |Ellipsis|
  {
    if content == "" then ""
    else
      var text := StripTags(content);
      if |text| > maxLength then Prefix(text, maxLength) + Ellipsis else text
  }

  /** The preview holds no tag before its "..." and is never longer than the
      content it comes from plus the "...". */
  lemma PreviewPlain(content: string, maxLength: int)
    requires content != ""
    ensures var r := TruncateContent(content, maxLength);
      |r| <= |content| + |Ellipsis|
      && (|StripTags(content)| <= maxLength ==> NoTag(r))
      && (|StripTags(content)| > maxLength ==> NoTag(Prefix(StripTags(content), maxLength)))
  {
    StripTagsNoTag(content);
    var text := StripTags(content);
    NoTagPrefix(text, |Prefix(text, maxLength)|);
  }

  /** A prefix of a text without tags has none either. */
  lemma NoTagPrefix(s: string, n: nat)
    requires NoTag(s) && n <= |s|
    ensures NoTag(s[..n])
  {
    forall i, j | 0 <= i < j < n && s[..n][i] == '<' ensures s[..n][j] != '>' {
      assert s[..n][i] == s[i] && s[..n][j] == s[j];
    }
  }

  // ------------------------------------------------------------ paging

  /** The parameters `loadArticles` passes to the data service; `tag` is left
      out when the search text is empty. */
  datatype ArticleQuery = ArticleQuery(category: Option<int>, published: bool, tag: Option<string>,
                                       limit: int, offset: int)

  function QueryFor(category: Option<int>, published: bool, searchTag: string, pageSize: int, currentPage: int): (q: ArticleQuery)
    ensures q.tag.None? <==> searchTag == ""
    ensures q.tag.Some? ==> q.tag.value == searchTag
    ensures q.limit == pageSize && q.offset == currentPage * pageSize
  {
    ArticleQuery(category, published, if searchTag == "" then None else Some(searchTag), pageSize, currentPage * pageSize)
  }

  /** With a positive page size, each page starts where the previous one ends,
      so two different pages never ask for the same article. */
  lemma PagesTile(pageSize: int, p: nat, q: nat)
    requires pageSize > 0 && p < q
    ensures QueryFor(None, true, "", pageSize, p + 1).offset
         == QueryFor(None, true, "", pageSize, p).offset + pageSize
    ensures QueryFor(None, true, "", pageSize, p).offset + pageSize <= QueryFor(None, true, "", pageSize, q).offset
  {
    assert (p + 1) * pageSize == p * pageSize + pageSize;
    var d := q - p - 1;
    assert q * pageSize == (p + 1) * pageSize + d * pageSize;
    assert d * pageSize >= 0;
  }

  class Page {
    var articles: seq<Article>
    var isLoading: bool
    var selectedCategory: Option<int>
    var searchTag: string
    var showPublishedOnly: bool
    var totalArticles: int
    var pageSize: int
    var currentPage: int
    /** Queries sent, oldest first. */
    var requests: seq<ArticleQuery>

    constructor()
      ensures articles == [] && isLoading
      ensures selectedCategory.None? && searchTag == "" && showPublishedOnly
      ensures totalArticles == 0 && pageSize == 6 && currentPage == 0
      ensures requests == []
    {
      articles := [];
      isLoading := true;
      selectedCategory := None;
      searchTag := "";
      showPublishedOnly := true;
      totalArticles := 0;
      pageSize := 6;
      currentPage := 0;
      requests := [];
    }

    function Query(): ArticleQuery
      reads this
    {
      QueryFor(selectedCategory, showPublishedOnly, searchTag, pageSize, currentPage)
    }

    /** `loadArticles`: marks the page as loading and sends the current query. */
    method LoadArticles()
      modifies this
      ensures isLoading && requests == old(requests) + [Query()]
      ensures articles == old(articles) && selectedCategory == old(selectedCategory) && searchTag == old(searchTag)
      ensures showPublishedOnly == old(showPublishedOnly) && pageSize == old(pageSize) && currentPage == old(currentPage)
      ensures totalArticles == old(totalArticles)
    {
      isLoading := true;
      requests := requests + [Query()];
    }

    /** The answer to the last query: the articles on success, nothing new
        on failure; loading ends either way. */
    method OnArticles(result: Option<seq<Article>>)
      modifies this
      ensures !isLoading
      ensures articles == if result.Some? then result.value else old(articles)
      ensures requests == old(requests) && selectedCategory == old(selectedCategory) && searchTag == old(searchTag)
      ensures showPublishedOnly == old(showPublishedOnly) && pageSize == old(pageSize) && currentPage == old(currentPage)
      ensures totalArticles == old(totalArticles)
    {
      if result.Some? {
        articles := result.value;
      }
      isLoading := false;
    }

    /** `onFilterChange`: back to the first page, then reload; the query sent
        starts at offset 0 with the current filters. */
    method OnFilterChange()
      modifies this
      ensures currentPage == 0 && isLoading
      ensures requests == old(requests) + [QueryFor(selectedCategory, showPublishedOnly, searchTag, pageSize, 0)]
      ensures requests[|requests| - 1].offset == 0
      ensures articles == old(articles) && selectedCategory == old(selectedCategory) && searchTag == old(searchTag)
      ensures showPublishedOnly == old(showPublishedOnly) && pageSize == old(pageSize)
      ensures totalArticles == old(totalArticles)
    {
      currentPage := 0;
      LoadArticles();
    }

    /** `onPageChange`: the paginator's page index and size are adopted and
        the page at that offset is requested. */
    method OnPageChange(pageIndex: int, newPageSize: int)
      modifies this
      ensures currentPage == pageIndex && pageSize == newPageSize && isLoading
      ensures requests == old(requests) + [QueryFor(selectedCategory, showPublishedOnly, searchTag, newPageSize, pageIndex)]
      ensures requests[|requests| - 1].offset == pageIndex * newPageSize
      ensures requests[|requests| - 1].limit == newPageSize
      ensures articles == old(articles) && selectedCategory == old(selectedCategory) && searchTag == old(searchTag)
      ensures showPublishedOnly == old(showPublishedOnly) && totalArticles == old(totalArticles)
    {
      currentPage := pageIndex;
      pageSize := newPageSize;
      LoadArticles();
    }
  }
}
