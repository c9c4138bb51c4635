/**
 * The login form (`app/login/LoginForm.tsx`): two text fields, an error
 * line, and a submit handler that checks the fields in order and, for the
 * demo credentials, writes the auth cookie and navigates on.
 */
module LoginForms {
  import opened Wrappers
  import opened Text
  import opened BrowserState
  import Middleware

  const DefaultRedirect: string := "/admin"
  const DemoUserId: string := "admin"
  const DemoPassword: string := "admin123"

  const UserIdRequired: string := "User ID is required"
  const PasswordRequired: string := "Password is required"
  const InvalidCredentials: string := "Invalid user ID or password"

  /** `searchParams.get("redirect") || "/admin"`: the query value unless it
      is absent or empty. */
  function RedirectTarget(query: Option<string>): (r: string)
    ensures r != ""
    ensures query.Some? && query.value != "" ==> r == query.value
    ensures query.None? || query.value == "" ==> r == DefaultRedirect
  {
    if query.Some? && query.value != "" then query.value else DefaultRedirect
  }

  datatype LoginVerdict = Accepted | Rejected(message: string)

  /** The checks of `handleLogin`, in their order: user ID present, password
      present, then the exact, untrimmed demo pair. */
  function CheckLogin(userId: string, password: string): (r: LoginVerdict)
    ensures r == Accepted <==> userId == DemoUserId && password == DemoPassword
    ensures IsBlank(userId) ==> r == Rejected(UserIdRequired)
    ensures !IsBlank(userId) && IsBlank(password) ==> r == Rejected(PasswordRequired)
    ensures r == Rejected(InvalidCredentials) <==>
              !IsBlank(userId) && !IsBlank(password) &&
              (userId != DemoUserId || password != DemoPassword)
  {
    assert !IsSpace(DemoUserId[0]) && !IsSpace(DemoPassword[0]);
    if IsBlank(userId) then Rejected(UserIdRequired)
    else if IsBlank(password) then Rejected(PasswordRequired)
    else if userId == DemoUserId && password == DemoPassword then Accepted
    else Rejected(InvalidCredentials)
  }

  /** Credentials are compared untrimmed: a padded user ID is refused. */
  lemma PaddedUserIdRefused()
    ensures CheckLogin(" admin", DemoPassword) == Rejected(InvalidCredentials)
  {
    assert !IsSpace(" admin"[1]) && !IsSpace(DemoPassword[0]);
    assert " admin"[0] != DemoUserId[0];
  }

  class LoginForm {
    const browser: Browser
    /** Where a successful login navigates to. */
    const redirect: string
    var userId: string
    var password: string
    var error: string

    constructor (browser: Browser, query: Option<string>)
      ensures this.browser == browser && redirect == RedirectTarget(query)
      ensures userId == "" && password == "" && error == ""
    {
      this.browser := browser;
      redirect := RedirectTarget(query);
      userId, password, error := "", "", "";
    }

    /** The user-ID input's `onChange`. */
    method SetUserId(value: string)
      modifies this
      ensures userId == value && password == old(password) && error == old(error)
    {
      userId := value;
    }

    /** The password input's `onChange`. */
    method SetPassword(value: string)
      modifies this
      ensures password == value && userId == old(userId) && error == old(error)
    {
      password := value;
    }

    /** `handleLogin`: the error is cleared, then the first failing check
        sets it; only the demo pair writes the token cookie and navigates. */
    method HandleLogin()
      modifies this, browser
      ensures userId == old(userId) && password == old(password)
      ensures CheckLogin(userId, password) == Accepted ==>
                && error == ""
                && browser.cookies == old(browser.cookies)[Middleware.AuthCookie := Middleware.DemoToken]
                && browser.history == old(browser.history) + [redirect]
                && browser.storage == old(browser.storage)
      ensures CheckLogin(userId, password).Rejected? ==>
                && error == CheckLogin(userId, password).message
                && unchanged(browser)
    {
      error := "";
      if IsBlank(userId) {
        error := UserIdRequired;
        return;
      }
      if IsBlank(password) {
        error := PasswordRequired;
        return;
      }
      if userId == DemoUserId && password == DemoPassword {
        browser.SetCookie(Middleware.AuthCookie, Middleware.DemoToken);
        browser.Push(redirect);
      } else {
        error := InvalidCredentials;
      }
    }
  }
}
