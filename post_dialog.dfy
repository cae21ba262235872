/** The post editor dialog
    (frontend/src/app/components/post-dialog/post-dialog.component.ts): its own
    image-URL rewrite with the relative-path and VPS branches, the rewrite of
    image sources inside the content, the meta-title length, the image picker
    and the slug button. */
module PostDialog {
  import opened Text
  import opened Slugs
  import opened UrlConverter
  import Admin
  import FileValidator
  import SeoPreview

  // ------------------------------------------------------------ image URLs

  /** End of `https?://` at `i`: the engine tries "https://" first, then "http://". */
  function SchemeEnd(s: string, i: nat): (r: Option<nat>)
    ensures r.Some? ==> r.value <= |s|
  {
    if OccursAt(s, "https://", i) then Some(i + 8)
    else if OccursAt(s, "http://", i) then Some(i + 7)
    else None
  }

  predicate NoLineTerminator(s: string) {
    forall k :: 0 <= k < |s| ==> !IsLineTerminator(s[k])
  }

  /** Start of the group of `https?:\/\/[^\/]+(.*)$` when the pattern matches
      at `i`: the host run is greedy and stops at the first '/', and `.*` must
      then reach the end of the text without crossing a line terminator. */
  function PathMatchAt(s: string, i: nat): (r: Option<nat>)
    ensures r.Some? ==> i < r.value <= |s|
  {
    match SchemeEnd(s, i)
    case None => None
    case Some(h) =>
      var j := FirstOf(s, h, IsSlash);
      if j > h && NoLineTerminator(s[j..]) then Some(j) else None
  }

  /** `url.match(...)`: the leftmost position where the pattern matches. */
  function FindPath(s: string, from: nat): (r: Option<nat>)
    requires from <= |s|
    ensures r.Some? ==> r.value <= |s|
    decreases |s| - from
  {
    match PathMatchAt(s, from)
    case Some(j) => Some(j)
    case None => if from == |s| then None else FindPath(s, from + 1)
  }

  predicate RelativePath(url: string) {
    StartsWith(url, "/data/") || StartsWith(url, "/uploads/") || StartsWith(url, "/api/")
  }

  predicate VpsPattern(url: string) {
    Contains(url, "/data/uploads/") || Contains(url, "/api/")
  }

  /** The dialog's private `convertImageUrl`: the three rewrites the admin page
      makes, then relative paths kept, then any other absolute URL naming an
      upload or API path cut down to its path. */
  function ConvertImageUrl(url: string): string {
    if url == "" then url
    else if Admin.ProxyBranch(url) then Admin.ConvertImageUrl(url)
    else if RelativePath(url) then url
    else if VpsPattern(url) then
      match FindPath(url, 0)
      case Some(j) => url[j..]
      case None => url
    else url
  }

  /** Where the extra branches do not apply, the dialog rewrites exactly as the
      admin page does. */
  lemma AgreesWithAdmin(url: string)
    requires Admin.ProxyBranch(url) || RelativePath(url) || !VpsPattern(url)
    ensures ConvertImageUrl(url) == Admin.ConvertImageUrl(url)
  {
  }

  /** Paths already served by the proxy come back unchanged. */
  lemma RelativePathKept(url: string)
    requires RelativePath(url)
    ensures ConvertImageUrl(url) == url
  {
    assert url[0] == '/';
    assert !Admin.ProxyBranch(url) by {
      assert Localhost[0] != '/' && "https://"[0] != '/' && "http://"[0] != '/';
    }
  }

  /** An absolute URL on another port, `scheme://host/path`, whose path names
      an upload or API resource and holds no line break, becomes its path. */
  lemma VpsUrlToPath(scheme: string, host: string, path: string)
    requires scheme == "https://" || scheme == "http://"
    requires host != [] && forall k :: 0 <= k < |host| ==> host[k] != '/'
    requires path != [] && path[0] == '/' && NoLineTerminator(path)
    requires Contains(path, "/data/uploads/") || Contains(path, "/api/")
    requires !Contains(scheme + host + path, ":8080/")
    ensures ConvertImageUrl(scheme + host + path) == path
  {
    var url := scheme + host + path;
    var j := |scheme| + |host|;
    assert url[j..] == path;
    NotProxyBranch(url);
    assert !RelativePath(url) by { assert url[0] == 'h'; }
    if Contains(path, "/data/uploads/") {
      ContainsSuffix(url, j, "/data/uploads/");
    } else {
      ContainsSuffix(url, j, "/api/");
    }
    PathMatchesAtStart(scheme, host, path);
  }

  /** Without ":8080/" none of the admin page's rewrites applies. */
  lemma NotProxyBranch(url: string)
    requires !Contains(url, ":8080/")
    ensures !Admin.ProxyBranch(url)
  {
    if StartsWith(url, Localhost) {
      assert OccursAt(url, ":8080/", 16) by { assert url[16..22] == Localhost[16..22]; }
      ContainsIff(url, ":8080/");
    }
  }

  /** On `scheme://host/path` the pattern matches at the start, and its group
      is the path. */
  lemma PathMatchesAtStart(scheme: string, host: string, path: string)
    requires scheme == "https://" || scheme == "http://"
    requires host != [] && forall k :: 0 <= k < |host| ==> host[k] != '/'
    requires path != [] && path[0] == '/' && NoLineTerminator(path)
    ensures FindPath(scheme + host + path, 0) == Some(|scheme| + |host|)
  {
    SchemeAtStart(scheme, host, path);
    FirstSlashAfterHost(scheme, host, path);
    PathAfterHost(scheme, host, path);
    PathMatchOf(scheme + host + path, |scheme|, |scheme| + |host|);
  }

  /** What follows the host is the path. */
  lemma PathAfterHost(scheme: string, host: string, path: string)
    requires NoLineTerminator(path)
    ensures NoLineTerminator((scheme + host + path)[|scheme| + |host|..])
  {
    assert (scheme + host + path)[|scheme| + |host|..] == path;
  }

  /** The pattern matches at the start when the scheme is there, the host run
      is not empty and the rest holds no line break. */
  lemma PathMatchOf(url: string, h: nat, j: nat)
    requires SchemeEnd(url, 0) == Some(h) && FirstOf(url, h, IsSlash) == j && j > h
    requires NoLineTerminator(url[j..])
    ensures FindPath(url, 0) == Some(j)
  {
    assert PathMatchAt(url, 0) == Some(j);
  }

  lemma SchemeAtStart(scheme: string, host: string, path: string)
    requires scheme == "https://" || scheme == "http://"
    ensures SchemeEnd(scheme + host + path, 0) == Some(|scheme|)
  {
    var url := scheme + host + path;
    if scheme == "http://" {
      assert !OccursAt(url, "https://", 0) by { assert url[4] == ':'; }
    }
    assert url[..|scheme|] == scheme;
  }

  /** The host run ends at the '/' that opens the path. */
  lemma FirstSlashAfterHost(scheme: string, host: string, path: string)
    requires forall k :: 0 <= k < |host| ==> host[k] != '/'
    requires path != [] && path[0] == '/'
    ensures FirstOf(scheme + host + path, |scheme|, IsSlash) == |scheme| + |host|
  {
    var url := scheme + host + path;
    var h, j := |scheme|, |scheme| + |host|;
    forall k | h <= k < j ensures url[k] != '/' {
      assert url[k] == host[k - h];
    }
    assert url[j] == path[0];
    FirstOfIs(url, h, j);
  }

  lemma FirstOfIs(s: string, h: nat, j: nat)
    requires h <= j < |s| && s[j] == '/'
    requires forall k :: h <= k < j ==> s[k] != '/'
    ensures FirstOf(s, h, IsSlash) == j
  {
  }

  /** A pattern found in a suffix of a text is found in the text. */
  lemma ContainsSuffix(s: string, j: nat, p: string)
    requires j <= |s| && Contains(s[j..], p)
    ensures Contains(s, p)
  {
    ContainsIff(s[j..], p);
    var i :| OccursAt(s[j..], p, i);
    assert s[j + i..j + i + |p|] == s[j..][i..i + |p|];
    assert OccursAt(s, p, j + i);
    ContainsIff(s, p);
  }

  /** The dialog's `convertContentImageUrls`: every image source in the content
      goes through the dialog's own `convertImageUrl`. */
  function ConvertContentImageUrls(html: string): (r: string)
    ensures (forall p :: !CiOccursAt(html, "<img", p)) ==> r == html
  {
    if html == "" then html
    else
      NoImgCase(html);
      RewriteImgSrc(html, ConvertImageUrl)
  }

  lemma NoImgCase(html: string)
    ensures (forall p :: !CiOccursAt(html, "<img", p)) ==> RewriteImgSrc(html, ConvertImageUrl) == html
  {
    if forall p :: !CiOccursAt(html, "<img", p) {
      NoImgUnchanged(html, ConvertImageUrl);
    }
  }

  // ------------------------------------------------------------ SEO helpers

  /** `getMetaTitleLength`: the meta title's length, or the title's when there
      is no meta title. */
  function MetaTitleLength(metaTitle: string, title: string): (n: nat)
    ensures metaTitle != "" ==> n == |metaTitle|
    ensures metaTitle == "" ==> n == |title|
  {
    |if metaTitle != "" then metaTitle else title|
  }

  /** The count shown beside the field is the length of the title the search
      preview displays, as long as it fits the preview's 60 characters. */
  lemma MetaTitleLengthIsPreviewLength(metaTitle: string, title: string)
    requires 0 < MetaTitleLength(metaTitle, title) <= 60
    ensures |SeoPreview.DisplayTitle(metaTitle, title)| == MetaTitleLength(metaTitle, title)
  {
  }

  // ------------------------------------------------------------ the dialog

  /** The form fields these operations read and write. */
  datatype PostForm = PostForm(title: string, slug: string, metaTitle: string, imageUrl: string)

  const MaxImageSize := 5 * 1024 * 1024
  const ImageTooLarge := "Kích thước tệp không được vượt quá 5MB"
  const NotAnImage := "Chỉ chấp nhận tệp hình ảnh"
  const UploadFailed := "Lỗi khi tải lên hình ảnh. Vui lòng thử lại."

  /** The picker's two checks, size first. */
  function ImageCheck(f: FileValidator.File): (error: Option<string>)
    ensures error.None? <==> f.size <= MaxImageSize && StartsWith(f.mimeType, "image/")
    ensures f.size > MaxImageSize ==> error == Some(ImageTooLarge)
  {
    if f.size > MaxImageSize then Some(ImageTooLarge)
    else if !StartsWith(f.mimeType, "image/") then Some(NotAnImage)
    else None
  }

  /** The picker lets through every image the shared validator accepts, and
      more: it does not check the format, so a GIF goes to the upload. */
  lemma PickerWeakerThanValidator(f: FileValidator.File)
    ensures FileValidator.ValidateImage(f).isValid ==> ImageCheck(f).None?
    ensures ImageCheck(FileValidator.File("image/gif", 10)).None?
    ensures !FileValidator.ValidateImage(FileValidator.File("image/gif", 10)).isValid
  {
    FileValidator.ImageEdges();
    assert StartsWith("image/gif", "image/");
  }

  class Dialog {
    var form: PostForm
    var selectedImageUrl: Option<string>
    var imageUploadError: Option<string>
    var isUploadingImage: bool
    /** The files handed to the upload service, oldest first. */
    var uploads: seq<FileValidator.File>

    constructor(form: PostForm)
      ensures this.form == form && selectedImageUrl.None? && imageUploadError.None?
      ensures !isUploadingImage && uploads == []
    {
      this.form := form;
      selectedImageUrl := None;
      imageUploadError := None;
      isUploadingImage := false;
      uploads := [];
    }

    /** `onImageSelect`: nothing without a file; a file over 5 MiB or not an
        image only sets the error; otherwise the error is cleared and one
        upload starts. */
    method OnImageSelect(file: Option<FileValidator.File>)
      modifies this
      ensures form == old(form) && selectedImageUrl == old(selectedImageUrl)
      ensures file.None? ==> imageUploadError == old(imageUploadError)
                             && isUploadingImage == old(isUploadingImage) && uploads == old(uploads)
      ensures file.Some? && ImageCheck(file.value).Some? ==>
                imageUploadError == ImageCheck(file.value)
                && isUploadingImage == old(isUploadingImage) && uploads == old(uploads)
      ensures file.Some? && ImageCheck(file.value).None? ==>
                imageUploadError.None? && isUploadingImage && uploads == old(uploads) + [file.value]
    {
      if file.None? {
        return;
      }
      var f := file.value;
      if f.size > MaxImageSize {
        imageUploadError := Some(ImageTooLarge);
        return;
      }
      if !StartsWith(f.mimeType, "image/") {
        imageUploadError := Some(NotAnImage);
        return;
      }
      imageUploadError := None;
      isUploadingImage := true;
      uploads := uploads + [f];
    }

    /** The upload's answer: the URL it returns (`None` on error). */
    method OnUploadResult(response: Option<string>)
      modifies this
      ensures !isUploadingImage && uploads == old(uploads)
      ensures response.Some? ==> selectedImageUrl == response && form == old(form).(imageUrl := response.value)
                                 && imageUploadError == old(imageUploadError)
      ensures response.None? ==> imageUploadError == Some(UploadFailed)
                                 && selectedImageUrl == old(selectedImageUrl) && form == old(form)
    {
      isUploadingImage := false;
      if response.Some? {
        selectedImageUrl := response;
        form := form.(imageUrl := response.value);
      } else {
        imageUploadError := Some(UploadFailed);
      }
    }

    /** `removeImage` */
    method RemoveImage()
      modifies this
      ensures selectedImageUrl.None? && form == old(form).(imageUrl := "") && imageUploadError.None?
      ensures isUploadingImage == old(isUploadingImage) && uploads == old(uploads)
    {
      selectedImageUrl := None;
      form := form.(imageUrl := "");
      imageUploadError := None;
    }

    /** `generateSlug`: nothing without a title; otherwise the slug becomes the
        title's slug, which holds only `[a-z0-9-]` and no two hyphens in a row. */
    method GenerateSlug(lower: string -> string)
      modifies this
      ensures old(form).title == "" ==> form == old(form)
      ensures old(form).title != "" ==> form == old(form).(slug := TitleSlug(lower, old(form).title))
      ensures old(form).title != "" ==> IsSlugText(form.slug) && NoDoubleHyphen(form.slug)
      ensures selectedImageUrl == old(selectedImageUrl) && imageUploadError == old(imageUploadError)
      ensures isUploadingImage == old(isUploadingImage) && uploads == old(uploads)
    {
      var title := form.title;
      if title != "" {
        var slug := TitleSlug(lower, title);
        TitleSlugShape(lower, title);
        form := form.(slug := slug);
      }
    }
  }
}
