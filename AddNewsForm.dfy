/**
 * The news form (`app/component/AddNewsForm.tsx`): a title and a summary,
 * an error line, and the `onAdd` calls it makes.
 */
module AddNewsForms {
  import opened Wrappers
  import opened Text

  /** The `name` attribute of the input an `onChange` comes from. */
  datatype NewsField = TitleField | SummaryField

  datatype NewsForm = NewsForm(title: string, summary: string)
  {
    function Get(field: NewsField): string {
      match field
      case TitleField => title
      case SummaryField => summary
    }

    /** `{ ...prev, [name]: value }` */
    function With(field: NewsField, value: string): (r: NewsForm)
      ensures r.Get(field) == value
      ensures forall g :: g != field ==> r.Get(g) == Get(g)
    {
      match field
      case TitleField => this.(title := value)
      case SummaryField => this.(summary := value)
    }
  }

  const EmptyNewsForm: NewsForm := NewsForm("", "")

  const TitleRequired: string := "Title is required"
  const DescriptionRequired: string := "Description is required"
  const DescriptionTooShort: string := "Description must be at least 10 characters"
  const MinSummaryLength: nat := 10

  /** The message `handleSubmit` sets, or None when every check passes. */
  function NewsError(f: NewsForm): (r: Option<string>)
    ensures r == None <==> !IsBlank(f.title) && !IsBlank(f.summary) && |f.summary| >= MinSummaryLength
    ensures r == Some(TitleRequired) <==> IsBlank(f.title)
    ensures r == Some(DescriptionRequired) <==> !IsBlank(f.title) && IsBlank(f.summary)
    ensures r == Some(DescriptionTooShort) <==>
              !IsBlank(f.title) && !IsBlank(f.summary) && |f.summary| < MinSummaryLength
  {
    if IsBlank(f.title) then Some(TitleRequired)
    else if IsBlank(f.summary) then Some(DescriptionRequired)
    else if |f.summary| < MinSummaryLength then Some(DescriptionTooShort)
    else None
  }

  class AddNewsForm {
    var formData: NewsForm
    var error: string
    /** The arguments of every `onAdd` call, oldest first. */
    var added: seq<NewsForm>

    constructor ()
      ensures formData == EmptyNewsForm && error == "" && added == []
    {
      formData := EmptyNewsForm;
      error := "";
      added := [];
    }

    /** `handleChange`: only the named field changes. */
    method HandleChange(field: NewsField, value: string)
      modifies this
      ensures formData == old(formData).With(field, value)
      ensures error == old(error) && added == old(added)
    {
      formData := formData.With(field, value);
    }

    /** `handleSubmit`: `onAdd` is called exactly when all three checks pass,
        and then both fields are reset. */
    method HandleSubmit()
      modifies this
      ensures NewsError(old(formData)).Some? ==>
                && error == NewsError(old(formData)).value
                && formData == old(formData) && added == old(added)
      ensures NewsError(old(formData)) == None ==>
                && error == ""
                && added == old(added) + [old(formData)]
                && formData == EmptyNewsForm
    {
      error := "";
      if IsBlank(formData.title) {
        error := TitleRequired;
        return;
      }
      if IsBlank(formData.summary) {
        error := DescriptionRequired;
        return;
      }
      if |formData.summary| < MinSummaryLength {
        error := DescriptionTooShort;
        return;
      }
      added := added + [formData];
      formData := EmptyNewsForm;
    }
  }
}
