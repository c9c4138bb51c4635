/**
 * The inline add-user form (`app/component/AddUserForm.tsx`): its field
 * values, its error line, and the `onAdd` calls it makes.
 */
module AddUserForms {
  import opened Wrappers
  import opened Text
  import opened UserValidation

  class AddUserForm {
    var formData: UserForm
    var error: string
    /** The arguments of every `onAdd` call, oldest first. */
    var added: seq<UserForm>

    constructor ()
      ensures formData == EmptyUserForm && error == "" && added == []
    {
      formData := EmptyUserForm;
      error := "";
      added := [];
    }

    /** `handleChange`: only the named field changes. */
    method HandleChange(field: UserField, value: string)
      modifies this
      ensures formData == old(formData).With(field, value)
      ensures error == old(error) && added == old(added)
    {
      formData := formData.With(field, value);
    }

    /** `handleSubmit`: clear the error, run the checks in order and stop at
        the first failure; when all pass, hand the data to `onAdd` and reset. */
    method HandleSubmit()
      modifies this
      ensures UserError(old(formData)).Some? ==>
                && error == UserError(old(formData)).value
                && formData == old(formData) && added == old(added)
      ensures UserError(old(formData)) == None ==>
                && error == ""
                && added == old(added) + [old(formData)]
                && formData == EmptyUserForm
    {
      error := "";
      if IsBlank(formData.name) {
        error := NameRequired;
        return;
      }
      if !EmailAccepted(formData.email) {
        error := EmailInvalid;
        return;
      }
      if !PasswordAccepted(formData.password) {
        error := PasswordTooShort;
        return;
      }
      if !MobileAccepted(formData.mobile) {
        error := MobileInvalid;
        return;
      }
      added := added + [formData];
      formData := EmptyUserForm;
    }
  }
}
