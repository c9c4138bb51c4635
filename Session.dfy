/**
 * How the pieces meet: the guard's redirect carries the requested path to
 * the login form, the login form writes the one token the guard accepts,
 * and logging out removes it again. Each method here runs the handlers on
 * fresh objects and reports what the guard then decides.
 */
module Session {
  import opened Wrappers
  import opened BrowserState
  import opened Middleware
  import LoginForms
  import Admin

  /** A successful login writes exactly the token the guard admits. */
  method LoginThenVisit(pathname: string) returns (r: Response)
    ensures r == Next
  {
    var browser := new Browser(map[], map[]);
    var form := new LoginForms.LoginForm(browser, None);
    form.SetUserId(LoginForms.DemoUserId);
    form.SetPassword(LoginForms.DemoPassword);
    form.HandleLogin();
    r := Route(pathname, browser.Cookie(AuthCookie));
  }

  /** Without a cookie, a protected path is sent to the login page with the
      path as `redirect`; the login form takes that path as its target and,
      after the demo credentials, navigates there and passes the guard. */
  method GuardLoginRoundTrip(pathname: string) returns (first: Response, landed: string, second: Response)
    requires Matched(pathname)
    ensures first == RedirectToLogin(Some(pathname))
    ensures landed == pathname
    ensures second == Next
  {
    MatchedIsProtected(pathname);
    var browser := new Browser(map[], map[]);
    first := Route(pathname, browser.Cookie(AuthCookie));
    var form := new LoginForms.LoginForm(browser, first.returnTo);
    form.SetUserId(LoginForms.DemoUserId);
    form.SetPassword(LoginForms.DemoPassword);
    form.HandleLogin();
    landed := browser.history[|browser.history| - 1];
    second := Route(landed, browser.Cookie(AuthCookie));
  }

  /** A failed login writes no cookie, so the guard still redirects. */
  method WrongPasswordThenVisit(pathname: string, password: string) returns (error: string, r: Response)
    requires Matched(pathname)
    requires password != LoginForms.DemoPassword
    ensures error != ""
    ensures r == RedirectToLogin(Some(pathname))
  {
    MatchedIsProtected(pathname);
    var browser := new Browser(map[], map[]);
    var form := new LoginForms.LoginForm(browser, Some(pathname));
    form.SetUserId(LoginForms.DemoUserId);
    form.SetPassword(password);
    form.HandleLogin();
    error := form.error;
    r := Route(pathname, browser.Cookie(AuthCookie));
  }

  /** After logout from a signed-in dashboard, the stored token is gone and
      every navigation to a matched path is redirected with its path preserved. */
  method LogoutThenVisit(pathname: string) returns (stored: bool, r: Response)
    requires Matched(pathname)
    ensures !stored
    ensures r == RedirectToLogin(Some(pathname))
  {
    var browser := new Browser(map[AuthCookie := DemoToken], map[Admin.TokenStorageKey := DemoToken]);
    var admin := new Admin.AdminContent(browser);
    admin.HandleLogout();
    stored := Admin.TokenStorageKey in browser.storage;
    MatchedIsProtected(pathname);
    r := Route(pathname, browser.Cookie(AuthCookie));
  }
}
