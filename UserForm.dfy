/**
 * The user dialog (components/UserFormModal.tsx): the form it shows for a
 * new or an existing user, and what pressing save hands back. A new user
 * needs a password; an existing user keeps the stored password unless a new
 * one is typed.
 */
module UserForm {
  import opened Types

  /** The dialog's `formData`. */
  datatype FormData = FormData(name: string, email: string, password: string, role: UserRole)

  /** What `onSave` receives: the fields of a new user, or the whole edited user. */
  datatype UserSave = SaveNew(data: UserData) | SaveExisting(user: User)

  /** The effect of lines 20-35: blank fields and the cashier role for a new user; the user's fields but no password for an edit. */
  function InitialForm(user: Option<User>): (f: FormData)
    ensures f.password == ""
    ensures user.None? ==> f == FormData("", "", "", Cashier)
    ensures user.Some? ==> f.name == user.value.name && f.email == user.value.email && f.role == user.value.role
  {
    match user
    case None => FormData("", "", "", Cashier)
    case Some(u) => FormData(u.name, u.email, "", u.role)
  }

  /**
   * `handleSubmit` (lines 43-68). An empty password is falsy: for a new user
   * the dialog refuses (`None`, nothing is saved); for an edit the password
   * key is deleted, so the spread keeps the user's stored one.
   */
  function Submitted(form: FormData, user: Option<User>): (r: Option<UserSave>)
    ensures r.None? <==> user.None? && form.password == ""
    ensures user.None? && r.Some? ==> r.value == SaveNew(UserData(form.name, form.email, form.password, form.role))
    ensures user.Some? ==> r.Some? && r.value.SaveExisting?
    ensures user.Some? ==> var saved := r.value.user;
      && saved.id == user.value.id
      && saved.name == form.name && saved.email == form.email && saved.role == form.role
      && saved.password == (if form.password == "" then user.value.password else form.password)
  {
    match user
    case None =>
      if form.password == "" then None
      else Some(SaveNew(UserData(form.name, form.email, form.password, form.role)))
    case Some(u) =>
      var password := if form.password == "" then u.password else form.password;
      Some(SaveExisting(User(u.id, form.name, form.email, password, form.role)))
  }

  /** Opening an existing user and saving without typing anything gives back that user unchanged. */
  lemma EditRoundTrip(u: User)
    ensures Submitted(InitialForm(Some(u)), Some(u)) == Some(SaveExisting(u))
  {
  }

  /** Opening a new-user form and saving at once saves nothing: the blank password is refused. */
  lemma BlankNewUserRefused()
    ensures Submitted(InitialForm(None), None).None?
  {
  }

  /** An edit never loses a password: the saved user has a non-empty one when the stored one was. */
  lemma EditKeepsAPassword(form: FormData, u: User)
    requires u.password != ""
    ensures Submitted(form, Some(u)).value.user.password != ""
  {
  }

  /** The dialog's state: the form fields, set when it opens. */
  class UserFormModal {
    var formData: FormData

    /** `useState` of lines 13-18. */
    constructor ()
      ensures formData == InitialForm(None)
    {
      formData := FormData("", "", "", Cashier);
    }

    /** The effect of lines 20-36, run when the dialog opens or its user changes. */
    method Initialise(user: Option<User>)
      modifies this
      ensures formData == InitialForm(user)
    {
      if user.Some? {
        formData := FormData(user.value.name, user.value.email, "", user.value.role);
      } else {
        formData := FormData("", "", "", Cashier);
      }
    }

    /** `handleSubmit`: what the dialog passes to `onSave`, if anything; the form itself is not changed. */
    method Submit(user: Option<User>) returns (r: Option<UserSave>)
      ensures r == Submitted(formData, user)
      ensures r.None? ==> user.None? && formData.password == ""
    {
      if user.None? && formData.password == "" {
        return None;
      }
      if user.Some? {
        var u := user.value;
        var saved := User(u.id, formData.name, formData.email, formData.password, formData.role);
        if formData.password == "" {
          saved := saved.(password := u.password);
        }
        r := Some(SaveExisting(saved));
      } else {
        r := Some(SaveNew(UserData(formData.name, formData.email, formData.password, formData.role)));
      }
    }
  }
}
