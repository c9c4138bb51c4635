/**
 * The modal add-user dialog (`app/component/AddUserModal.tsx`): the same
 * fields and checks as the inline form, and after a successful submit it
 * also closes itself through `onClose`.
 */
module AddUserModals {
  import opened Wrappers
  import opened Text
  import opened UserValidation

  /** A call the modal makes to its parent. */
  datatype Callback = OnAdd(user: UserForm) | OnClose

  class AddUserModal {
    var formData: UserForm
    var error: string
    /** The calls made to `onAdd` and `onClose`, oldest first. */
    var calls: seq<Callback>

    constructor ()
      ensures formData == EmptyUserForm && error == "" && calls == []
    {
      formData := EmptyUserForm;
      error := "";
      calls := [];
    }

    /** `handleChange`: only the named field changes. */
    method HandleChange(field: UserField, value: string)
      modifies this
      ensures formData == old(formData).With(field, value)
      ensures error == old(error) && calls == old(calls)
    {
      formData := formData.With(field, value);
    }

    /** `handleSubmit`: on failure the first failing message and no call;
        on success `onAdd` with the entered data, the reset, then `onClose`. */
    method HandleSubmit()
      modifies this
      ensures UserError(old(formData)).Some? ==>
                && error == UserError(old(formData)).value
                && formData == old(formData) && calls == old(calls)
      ensures UserError(old(formData)) == None ==>
                && error == ""
                && calls == old(calls) + [OnAdd(old(formData)), OnClose]
                && formData == EmptyUserForm
    {
      error := "";
      if IsBlank(formData.name) {
        error := NameRequired;
        return;
      }
      if !EmailAccepted(formData.email) {
        error := EmailInvalid;
        return;
      }
      if !PasswordAccepted(formData.password) {
        error := PasswordTooShort;
        return;
      }
      if !MobileAccepted(formData.mobile) {
        error := MobileInvalid;
        return;
      }
      calls := calls + [OnAdd(formData)];
      formData := EmptyUserForm;
      calls := calls + [OnClose];
    }

    /** The header's close button: `onClose` alone; the fields are kept. */
    method Close()
      modifies this
      ensures calls == old(calls) + [OnClose]
      ensures formData == old(formData) && error == old(error)
    {
      calls := calls + [OnClose];
    }
  }
}
