/** The full-page article editor
    (frontend/src/app/pages/article-editor/article-editor.component.ts): edit
    mode from the route, the form's length limits and required fields, the
    submit that creates or updates, the slug button and the meta-title count. */
module ArticleEditor {
  import opened Text
  import opened Slugs
  import PostDialog
  import SeoPreview

  /** The form fields the editor's rules involve. */
  datatype ArticleForm = ArticleForm(title: string, content: string, summary: string,
                                     categoryId: Option<int>, metaTitle: string, slug: string)

  const EmptyForm := ArticleForm("", "", "", None, "", "")

  /** The validators the form is built with: title, content and category are
      required; title, summary and slug are at most 500 characters and the
      meta title at most 255. */
  predicate FormValid(f: ArticleForm) {
    f.title != "" && |f.title| <= 500
    && f.content != ""
    && f.categoryId.Some?
    && |f.summary| <= 500
    && |f.metaTitle| <= 255
    && |f.slug| <= 500
  }

  /** `+params['id']` for an id written in decimal digits; any other text is
      not a number (`None`). */
  function RouteNumber(s: string): (n: Option<nat>)
    ensures n.Some? ==> s != ""
  {
    if s != "" && forall k :: 0 <= k < |s| ==> IsDigit(s[k]) then Some(DecimalValue(s)) else None
  }

  /** A route built from an id gives that id back. */
  lemma RouteNumberOfId(id: nat)
    ensures RouteNumber(NatToDecimal(id)) == Some(id)
  {
    DecimalRoundTrip(id);
  }

  /** What a submit sends. */
  datatype Submission = Create(form: ArticleForm) | Update(id: Option<nat>, form: ArticleForm)

  class Editor {
    var form: ArticleForm
    var isEditMode: bool
    var articleId: Option<nat>
    var isLoading: bool
    /** Articles requested for editing, and submissions sent, oldest first. */
    var loads: seq<Option<nat>>
    var sent: seq<Submission>

    constructor()
      ensures form == EmptyForm && !isEditMode && articleId.None? && !isLoading
      ensures loads == [] && sent == []
    {
      form := EmptyForm;
      isEditMode := false;
      articleId := None;
      isLoading := false;
      loads := [];
      sent := [];
    }

    /** The route parameters arrive: an `id` switches to edit mode and loads
        that article; without one the editor stays in create mode. */
    method OnRouteParams(id: Option<string>)
      modifies this
      ensures id.Some? && id.value != "" ==>
                isEditMode && articleId == RouteNumber(id.value) && isLoading && loads == old(loads) + [articleId]
      ensures !(id.Some? && id.value != "") ==>
                isEditMode == old(isEditMode) && articleId == old(articleId) && isLoading == old(isLoading)
                && loads == old(loads)
      ensures form == old(form) && sent == old(sent)
    {
      if id.Some? && id.value != "" {
        isEditMode := true;
        articleId := RouteNumber(id.value);
        isLoading := true;
        loads := loads + [articleId];
      }
    }

    /** `onSubmit`: a valid form is sent, as an update of the edited article in
        edit mode and as a new article otherwise; an invalid one is not sent. */
    method OnSubmit()
      modifies this
      ensures FormValid(form) ==> isLoading
      ensures FormValid(form) && isEditMode ==> sent == old(sent) + [Update(articleId, form)]
      ensures FormValid(form) && !isEditMode ==> sent == old(sent) + [Create(form)]
      ensures !FormValid(form) ==> sent == old(sent) && isLoading == old(isLoading)
      ensures form == old(form) && isEditMode == old(isEditMode) && articleId == old(articleId) && loads == old(loads)
    {
      if FormValid(form) {
        isLoading := true;
        var submission := if isEditMode then Update(articleId, form) else Create(form);
        sent := sent + [submission];
      }
    }

    /** `generateSlug`: nothing without a title; otherwise the slug becomes the
        title's slug, which holds only `[a-z0-9-]` and no two hyphens in a row;
        a valid form stays valid as long as lower-casing does not lengthen the
        title. */
    method GenerateSlug(lower: string -> string)
      modifies this
      ensures old(form).title == "" ==> form == old(form)
      ensures old(form).title != "" ==> form == old(form).(slug := TitleSlug(lower, old(form).title))
      ensures old(form).title != "" ==> IsSlugText(form.slug) && NoDoubleHyphen(form.slug)
      ensures FormValid(old(form)) && |lower(old(form).title)| <= |old(form).title| ==> FormValid(form)
      ensures isEditMode == old(isEditMode) && articleId == old(articleId) && isLoading == old(isLoading)
      ensures loads == old(loads) && sent == old(sent)
    {
      var title := form.title;
      if title != "" {
        var slug := TitleSlug(lower, title);
        TitleSlugShape(lower, title);
        if |lower(title)| <= |title| <= 500 {
          SlugFitsLimit(lower, title);
        }
        form := form.(slug := slug);
      }
    }

    /** `getMetaTitleLength`, the same count as the post dialog's; within 60
        characters it is the length of the title the search preview shows. */
    function MetaTitleLength(): (n: nat)
      reads this
      ensures form.metaTitle != "" ==> n == |form.metaTitle|
      ensures form.metaTitle == "" ==> n == |form.title|
      ensures 0 < n <= 60 ==> n == |SeoPreview.DisplayTitle(form.metaTitle, form.title)|
    {
      var n := PostDialog.MetaTitleLength(form.metaTitle, form.title);
      if 0 < n <= 60 then
        PostDialog.MetaTitleLengthIsPreviewLength(form.metaTitle, form.title);
        n
      else n
    }
  }

  /** A slug is at most as long as the title it is made from, so a valid title
      never makes the slug field invalid. */
  lemma SlugFitsLimit(lower: string -> string, title: string)
    requires |lower(title)| <= |title| <= 500
    ensures |TitleSlug(lower, title)| <= 500
  {
    TitleSlugShorter(lower, title);
  }

  lemma TitleSlugShorter(lower: string -> string, title: string)
    ensures |TitleSlug(lower, title)| <= |lower(title)|
  {
    TitleSlugShape(lower, title);
  }
}
