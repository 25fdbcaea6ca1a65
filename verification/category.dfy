/** The "Add New Category" form: field changes, validation before the request, and the
    reset after success or on "Clear" (src/pages/admin/AddCategory.jsx). */
module CategoryForm {
  import opened JsValue
  import opened Text

  /** The `category` state; a property that was never set is None (`undefined`). */
  datatype Category = Category(title: Option<string>, description: Option<string>, coverImage: Option<string>)

  datatype CategoryField = Title | Description | CoverImage

  const EmptyCategory := Category(Some(""), Some(""), Some(""))

  const TitleRequired := "Category title required !!"
  const DescriptionRequired := "Category Description required !!"

  /** Undefined, or white space only. */
  predicate Missing(v: Option<string>) {
    v.None? || Blank(v.value)
  }

  /** The validation in `handleFormSubmit`: the error shown, or None when the request may
      be sent. The title is checked first, so it alone is reported when both are missing. */
  function Validate(c: Category): (error: Option<string>)
    ensures error.None? <==> !Missing(c.title) && !Missing(c.description)
    ensures error == Some(TitleRequired) <==> Missing(c.title)
    ensures error == Some(DescriptionRequired) <==> !Missing(c.title) && Missing(c.description)
  {
    if Missing(c.title) then Some(TitleRequired)
    else if Missing(c.description) then Some(DescriptionRequired)
    else None
  }

  /** `Missing` is the source's test: undefined, or empty once trimmed. */
  lemma MissingIsTrimEmpty(v: Option<string>)
    ensures Missing(v) <==> v.None? || Trim(v.value) == ""
  {
    if v.Some? {
      TrimEmptyIff(v.value);
    }
  }

  /** The value of one property of the form. */
  function Get(c: Category, property: CategoryField): Option<string> {
    match property
    case Title => c.title
    case Description => c.description
    case CoverImage => c.coverImage
  }

  /** `{...category, [property]: value}`: the named property takes the value and the others
      keep theirs. */
  function WithField(c: Category, property: CategoryField, value: string): (r: Category)
    ensures Get(r, property) == Some(value)
    ensures forall other :: other != property ==> Get(r, other) == Get(c, other)
  {
    match property
    case Title => c.(title := Some(value))
    case Description => c.(description := Some(value))
    case CoverImage => c.(coverImage := Some(value))
  }

  /** The form's state. */
  class CategoryScreen {
    var category: Category
    var loading: bool

    constructor ()
      ensures category == EmptyCategory && !loading
    {
      category := EmptyCategory;
      loading := false;
    }

    /** `handleFieldChange`: only the named property changes. */
    method FieldChange(property: CategoryField, value: string)
      modifies this
      ensures category == WithField(old(category), property, value)
      ensures loading == old(loading)
    {
      category := WithField(category, property, value);
    }

    /** `handleFormSubmit`, given whether `addCategory` succeeds. Returns the error toast,
        if validation fails, and the category sent, if any. */
    method Submit(serverOk: bool) returns (error: Option<string>, sent: Option<Category>)
      modifies this
      ensures error == Validate(old(category))
      ensures sent.Some? <==> error.None?
      ensures sent.Some? ==> sent.value == old(category)
      ensures error.Some? ==> category == old(category) && loading == old(loading)
      ensures error.None? ==> !loading && (serverOk ==> category == EmptyCategory)
                              && (!serverOk ==> category == old(category))
    {
      error := Validate(category);
      if error.Some? {
        sent := None;
        return;
      }
      loading := true;
      sent := Some(category);
      if serverOk {
        category := EmptyCategory;
      }
      loading := false;
    }

    /** `clearForm`. */
    method ClearForm()
      modifies this
      ensures category == EmptyCategory && loading == old(loading)
    {
      category := EmptyCategory;
    }
  }
}
