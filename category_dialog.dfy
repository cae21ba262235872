/** The category create/edit dialog
    (frontend/src/app/components/category-dialog/category-dialog.component.ts):
    its form state, the `parent_id` requirement, the slug kept in step with the
    name while creating, and the request `onSave` prepares. Angular's reactive
    form is modelled as a record of field values plus the one validator that
    changes at run time; the HTTP call is recorded as the request sent. */
module CategoryDialog {
  import opened Text
  import opened Models
  import opened Slugs

  /** What the admin page hands the dialog: the category being edited (none
      when creating), whether it is a subcategory dialog, a preset parent, and
      whether the list of all categories came along. */
  datatype DialogData = DialogData(
    category: Option<Category>,
    isSubcategory: bool,
    parentId: Option<int>,
    hasAllCategories: bool)

  /** The form's values. `isActive == None` is an undefined value. */
  datatype Form = Form(
    name: string,
    slug: string,
    description: string,
    thumbnailUrl: string,
    categoryType: string,
    parentId: Option<int>,
    isActive: Option<bool>,
    metaTitle: string,
    metaDescription: string,
    metaKeywords: string,
    ogImageUrl: string)

  /** The `parent_id` key of the payload: left out, `null`, or a number. */
  datatype ParentField = Absent | Null | Id(id: int)

  /** The body sent to the API; `thumbnailUrl == None` leaves the key out. */
  datatype Payload = Payload(
    name: string,
    slug: string,
    description: string,
    categoryType: string,
    isActive: bool,
    metaTitle: string,
    metaDescription: string,
    metaKeywords: string,
    ogImageUrl: string,
    parent: ParentField,
    thumbnailUrl: Option<string>)

  datatype Request = Create(payload: Payload) | Update(id: int, payload: Payload)

  /** The form as the constructor builds it. */
  function InitialForm(): Form {
    Form("", "", "", "", "parent", None, Some(true), "", "", "", "")
  }

  /** The form after `ngOnInit`: filled from the edited category, then given
      the preset parent when there is a truthy one. */
  function OpenedForm(form: Form, data: DialogData): (f: Form)
    ensures data.category.Some? ==>
      var c := data.category.value;
      f.name == c.name && f.slug == c.slug && f.description == c.description
      && f.thumbnailUrl == c.thumbnailUrl && f.isActive == Some(c.isActive)
      && f.categoryType == OrString(Some(c.categoryType), "parent")
      && f.metaTitle == OrString(c.metaTitle, "") && f.metaDescription == OrString(c.metaDescription, "")
      && f.metaKeywords == OrString(c.metaKeywords, "") && f.ogImageUrl == OrString(c.ogImageUrl, "")
    ensures data.category.None? ==> f == form.(parentId := f.parentId)
    ensures f.parentId == (if Truthy(data.parentId) then data.parentId
                           else if data.category.Some? then data.category.value.parentId
                           else form.parentId)
  {
    var f := if data.category.None? then form else
      var c := data.category.value;
      form.(name := c.name, slug := c.slug, description := c.description,
            thumbnailUrl := c.thumbnailUrl, categoryType := OrString(Some(c.categoryType), "parent"),
            parentId := c.parentId, isActive := Some(c.isActive),
            metaTitle := OrString(c.metaTitle, ""), metaDescription := OrString(c.metaDescription, ""),
            metaKeywords := OrString(c.metaKeywords, ""), ogImageUrl := OrString(c.ogImageUrl, ""));
    if Truthy(data.parentId) then f.(parentId := data.parentId) else f
  }

  /** The request `onSave` prepares from the form. */
  function PayloadOf(data: DialogData, form: Form): (p: Payload)
    // the type defaults to 'parent'; the other texts are sent as they stand
    ensures p.categoryType == OrString(Some(form.categoryType), "parent") && p.categoryType != ""
    ensures p.name == form.name && p.slug == form.slug && p.description == form.description
    ensures p.metaTitle == form.metaTitle && p.metaDescription == form.metaDescription
    ensures p.metaKeywords == form.metaKeywords && p.ogImageUrl == form.ogImageUrl
    // is_active defaults to true only when undefined
    ensures p.isActive == (form.isActive.None? || form.isActive.value)
    // the thumbnail goes along only when it is not empty
    ensures p.thumbnailUrl.Some? <==> form.thumbnailUrl != ""
    ensures p.thumbnailUrl.Some? ==> p.thumbnailUrl.value == form.thumbnailUrl
    // a regular category never has a parent
    ensures p.categoryType == "regular" ==> p.parent == Null
    // otherwise a preset parent beats the form's choice, once either applies
    ensures p.categoryType != "regular" && (data.isSubcategory || Truthy(form.parentId)) && Truthy(data.parentId) ==>
              p.parent == Id(data.parentId.value)
    ensures p.categoryType != "regular" && !Truthy(data.parentId) && Truthy(form.parentId) ==>
              p.parent == Id(form.parentId.value)
    // the key is left out only for a subcategory without any parent, and is null for a main category
    ensures p.parent == Absent <==>
              p.categoryType != "regular" && data.isSubcategory && !Truthy(data.parentId) && !Truthy(form.parentId)
    ensures p.parent == Null <==>
              p.categoryType == "regular" || (!data.isSubcategory && !Truthy(form.parentId))
    ensures p.parent.Id? ==> p.parent.id != 0
  {
    var categoryType := OrString(Some(form.categoryType), "parent");
    Payload(
      form.name, form.slug, form.description, categoryType,
      form.isActive.None? || form.isActive.value,
      form.metaTitle, form.metaDescription, form.metaKeywords, form.ogImageUrl,
      if categoryType == "regular" then Null
      else if data.isSubcategory || Truthy(form.parentId) then
        (if Truthy(data.parentId) then Id(data.parentId.value)
         else if Truthy(form.parentId) then Id(form.parentId.value)
         else Absent)
      else Null,
      if form.thumbnailUrl != "" then Some(form.thumbnailUrl) else None)
  }

  /** An update of the edited category when there is one, a create otherwise. */
  function RequestOf(data: DialogData, form: Form): (r: Request)
    ensures r.Update? <==> data.category.Some?
    ensures r.Update? ==> r.id == data.category.value.id
    ensures r.payload == PayloadOf(data, form)
  {
    if data.category.Some? then Update(data.category.value.id, PayloadOf(data, form))
    else Create(PayloadOf(data, form))
  }

  /** The slug after the name changes: regenerated while creating, kept while
      editing or when the name is empty. */
  function NameSlug(data: DialogData, fold: string -> string, name: string, slug: string): (r: string)
    ensures data.category.Some? || name == "" ==> r == slug
    ensures data.category.None? && name != "" ==> r == CategorySlug(fold, name)
  {
    if name != "" && data.category.None? then CategorySlug(fold, name) else slug
  }

  /** A regenerated slug is in `[a-z0-9-]`; a kept one is unchanged. */
  lemma NameSlugAlphabet(data: DialogData, fold: string -> string, name: string, slug: string)
    requires IsSlugText(slug) || (data.category.None? && name != "")
    ensures IsSlugText(NameSlug(data, fold, name, slug))
  {
    if data.category.None? && name != "" {
      CategorySlugAlphabet(fold, name);
    }
  }

  class Dialog {
    const data: DialogData
    var form: Form
    /** Whether `parent_id` carries `Validators.required`. */
    var parentRequired: bool
    var isLoading: bool
    /** The create/update requests sent so far. */
    var sent: seq<Request>

    /** The form with its defaults; `parent_id` is required for a subcategory
        dialog that has the category list but no preset parent. */
    constructor(data: DialogData)
      ensures this.data == data && form == InitialForm()
      ensures parentRequired == (data.isSubcategory && data.hasAllCategories && !Truthy(data.parentId))
      ensures !isLoading && sent == []
    {
      this.data := data;
      form := InitialForm();
      parentRequired := data.isSubcategory && data.hasAllCategories && !Truthy(data.parentId);
      isLoading := false;
      sent := [];
    }

    /** Form validity: a name, a type, and a parent when one is required. */
    predicate Valid()
      reads this
    {
      form.name != "" && form.categoryType != "" && (!parentRequired || form.parentId.Some?)
    }

    /** `ngOnInit`: fill the form from the edited category and the preset parent. */
    method OnInit()
      modifies this
      ensures form == OpenedForm(old(form), data)
      ensures parentRequired == old(parentRequired) && isLoading == old(isLoading) && sent == old(sent)
    {
      if data.category.Some? {
        var c := data.category.value;
        form := form.(name := c.name, slug := c.slug, description := c.description,
                      thumbnailUrl := c.thumbnailUrl, categoryType := OrString(Some(c.categoryType), "parent"),
                      parentId := c.parentId, isActive := Some(c.isActive),
                      metaTitle := OrString(c.metaTitle, ""), metaDescription := OrString(c.metaDescription, ""),
                      metaKeywords := OrString(c.metaKeywords, ""), ogImageUrl := OrString(c.ogImageUrl, ""));
      }
      if Truthy(data.parentId) {
        form := form.(parentId := data.parentId);
      }
    }

    /** The name field changed: while creating, a non-empty name regenerates
        the slug (`fold` is lower-casing followed by NFD decomposition); while
        editing the slug is left alone. */
    method OnNameChange(name: string, fold: string -> string)
      modifies this
      ensures form == old(form).(name := name, slug := NameSlug(data, fold, name, old(form).slug))
      ensures parentRequired == old(parentRequired) && isLoading == old(isLoading) && sent == old(sent)
    {
      form := form.(name := name);
      if name != "" && data.category.None? {
        form := form.(slug := NameSlug(data, fold, name, form.slug));
      }
    }

    /** The type select changed to `value`: 'regular' clears the parent and its
        requirement; 'parent' in a subcategory dialog without a preset parent
        requires one again; anything else leaves the requirement as it was. */
    method OnCategoryTypeChange(value: string)
      modifies this
      ensures form == old(form).(categoryType := value, parentId := if value == "regular" then None else old(form).parentId)
      ensures value == "regular" ==> !parentRequired
      ensures value == "parent" && data.isSubcategory && !Truthy(data.parentId) ==> parentRequired
      ensures value != "regular" && !(value == "parent" && data.isSubcategory && !Truthy(data.parentId)) ==>
                parentRequired == old(parentRequired)
      ensures isLoading == old(isLoading) && sent == old(sent)
    {
      form := form.(categoryType := value);
      if value == "regular" {
        form := form.(parentId := None);
        parentRequired := false;
      } else if value == "parent" && data.isSubcategory && !Truthy(data.parentId) {
        parentRequired := true;
      }
    }

    /** `onSave`: a valid form is turned into a payload field by field and sent,
        as an update of the edited category or a create; an invalid form sends
        nothing. */
    method OnSave()
      modifies this
      ensures old(Valid()) ==> sent == old(sent) + [RequestOf(data, old(form))] && isLoading
      ensures !old(Valid()) ==> sent == old(sent) && isLoading == old(isLoading)
      ensures form == old(form) && parentRequired == old(parentRequired)
    {
      if Valid() {
        isLoading := true;
        var categoryType := if form.categoryType != "" then form.categoryType else "parent";
        var payload := Payload(
          form.name, form.slug, form.description, categoryType,
          if form.isActive.Some? then form.isActive.value else true,
          form.metaTitle, form.metaDescription, form.metaKeywords, form.ogImageUrl,
          Absent, None);
        if payload.categoryType == "" {
          payload := payload.(categoryType := "parent");
        }
        if payload.categoryType == "regular" {
          payload := payload.(parent := Null);
        } else if data.isSubcategory || Truthy(form.parentId) {
          if Truthy(data.parentId) {
            payload := payload.(parent := Id(data.parentId.value));
          } else if Truthy(form.parentId) {
            payload := payload.(parent := Id(form.parentId.value));
          }
        } else {
          payload := payload.(parent := Null);
        }
        if form.thumbnailUrl != "" {
          payload := payload.(thumbnailUrl := Some(form.thumbnailUrl));
        }
        if data.category.Some? {
          sent := sent + [Update(data.category.value.id, payload)];
        } else {
          sent := sent + [Create(payload)];
        }
      }
    }

    /** The request came back: loading ends either way. */
    method OnResponse()
      modifies this
      ensures !isLoading
      ensures form == old(form) && parentRequired == old(parentRequired) && sent == old(sent)
    {
      isLoading := false;
    }
  }

  /** Opening an existing category and saving it untouched sends back what the
      dialog was given: the same id, texts, type, flag, parent and thumbnail,
      with missing SEO fields sent as ''. */
  lemma EditRoundTrip(c: Category)
    requires c.categoryType != "" && c.categoryType != "regular"
    ensures var data := DialogData(Some(c), false, None, true);
            var r := RequestOf(data, OpenedForm(InitialForm(), data));
            r == Update(c.id, Payload(c.name, c.slug, c.description, c.categoryType, c.isActive,
                                      OrString(c.metaTitle, ""), OrString(c.metaDescription, ""),
                                      OrString(c.metaKeywords, ""), OrString(c.ogImageUrl, ""),
                                      if Truthy(c.parentId) then Id(c.parentId.value) else Null,
                                      if c.thumbnailUrl != "" then Some(c.thumbnailUrl) else None))
  {
    var data := DialogData(Some(c), false, None, true);
    var f := OpenedForm(InitialForm(), data);
    assert f.parentId == c.parentId;
  }

  /** An API record carrying a meta title, normalised as `getCategories` is
      written, edited in the dialog and saved untouched: the update sends an
      empty meta title, and the backend overwrites the stored one with it. */
  lemma EditErasesSeo()
    ensures var a := ApiCategory(1, "Villa", "villa", "", "", Some("parent"), None, Some(0), Some(1), Some(1),
                                 Some(true), Some("Villa designs"), None, None, None, "", "");
            var data := DialogData(Some(NormalizeCategoryAsWritten(a)), false, None, true);
            var p := RequestOf(data, OpenedForm(InitialForm(), data)).payload;
            a.metaTitle == Some("Villa designs") && p.metaTitle == ""
  {
  }

  /** With the SEO fields carried through the normalisation, an untouched
      edit sends back every SEO field the API record had. */
  lemma EditKeepsSeo(a: ApiCategory)
    ensures var data := DialogData(Some(NormalizeCategory(a)), false, None, true);
            var p := RequestOf(data, OpenedForm(InitialForm(), data)).payload;
            p.metaTitle == OrString(a.metaTitle, "") && p.metaDescription == OrString(a.metaDescription, "")
            && p.metaKeywords == OrString(a.metaKeywords, "") && p.ogImageUrl == OrString(a.ogImageUrl, "")
  {
  }
}
