# Admin front end: route guard, forms and dashboard state

A Dafny model of the decision logic of a small content-administration web
front end (users, media and news managed through forms and dialogs over a
remote API). Three pieces are modelled:

- the **route guard** (`middleware.ts`): a total function from a request
  path and the `authToken` cookie to "pass through", "redirect to `/login`
  with `redirect=<path>`" or "redirect to `/login`";
- the **forms**: the login form, the add-user form and modal, the news form
  and the media upload form, each a class holding its state cells, with
  `handleChange`/`handleSubmit` handlers as methods. Each submit handler is a
  fixed chain of early-return checks, and the checks are hand-written string
  predicates: JavaScript `trim()`, an email regex, "ten digits after removing
  non-digits", and MIME-prefix tests;
- the **admin dashboard** (`AdminContent`): a class over the active tab,
  three dialog flags, the media and news editing targets with their
  snapshots, and the local news list, with one method per handler.

Calls into code outside the core are recorded, not performed. Callbacks
(`onAdd`, `onClose`, `onUpload`) go into a log field on the form. Data-hook
calls (`fetchUsers`, `fetchNews`, `fetchMedias`, the deletes) go into the
dashboard's `effects`. `document.cookie`, `localStorage` and `router.push`
act on a shared `Browser` object. The `Session` module composes the pieces
on fresh objects: guard → login → guard, and logout → guard.

Layout: `Wrappers.dfy` (Option), `Text.dfy` (trim, `\s`, `\d`, `startsWith`,
digit filter), `Middleware.dfy`, `Browser.dfy`, `LoginForm.dfy`,
`UserValidation.dfy` (the chain shared by the add-user form and modal),
`AddUserForm.dfy`, `AddUserModal.dfy`, `AddNewsForm.dfy`,
`UploadMediaForm.dfy`, `AdminContent.dfy`, `Session.dfy`.

Facts about the code that a reader might not expect:

- The guard does not call the server: it compares the `authToken` cookie
  with the fixed value `demo-admin-token`.
- The login form calls no API: it checks the fixed pair `admin`/`admin123`
  and writes the demo token as a cookie only.
- The dialog titles use JavaScript truthiness, so an editing id equal to the
  empty string gives "Upload Media" / "Create News Article". The model keeps
  this (`Truthy`) rather than a plain "id present" test.

## Model

| member | source | states |
|---|---|---|
| Text.TrimStart | app/login/LoginForm.tsx:18 | what remains is a suffix, starts with a non-space, and everything removed is whitespace |
| Text.TrimEnd | app/login/LoginForm.tsx:18 | what remains is a prefix, ends with a non-space, and everything removed is whitespace |
| Text.TrimEmptyIffAllSpace | app/login/LoginForm.tsx:18 | `s.trim()` is empty exactly when every character is JavaScript whitespace, which is what `IsBlank` tests |
| Text.Digits | app/component/AddUserForm.tsx:41 | `replace(/\D/g, "")` yields only ASCII digits and is no longer than its input |
| Text.DigitsAppend | app/component/AddUserForm.tsx:41 | removing non-digits distributes over concatenation |
| Text.DigitsOfDigits | app/component/AddUserForm.tsx:41 | a digit-only string is left unchanged, so the filter is idempotent |
| Text.DigitsOfNonDigits | app/component/AddUserForm.tsx:41 | a string without digits filters to the empty string |
| Middleware.Guard | middleware.ts:3-25 | passes exactly when the path lacks the `/admin` prefix or the token is `demo-admin-token`; a missing or empty token on a protected path redirects with `redirect` equal to the original path; any other token redirects without it (fails closed) |
| Middleware.RouteNextIff | middleware.ts:27-29 | a navigation goes through exactly when the matcher skips the path or the cookie holds `demo-admin-token`; every other navigation is redirected to login |
| Middleware.MatchedIsProtected | middleware.ts:27-29 | every matched path passes the guard's prefix test and, without a cookie, is redirected with its path |
| Middleware.PrefixWiderThanMatcher | middleware.ts:7 | `/adminx` is protected by the guard's prefix test but never reaches it through the matcher |
| BrowserState.Browser.SetCookie | app/login/LoginForm.tsx:30 | writing a cookie sets that one name; storage and history are unchanged |
| BrowserState.Browser.ExpireCookie | app/admin/AdminContent.tsx:136 | a `max-age=0` write deletes the cookie and touches nothing else |
| BrowserState.Browser.RemoveItem | app/admin/AdminContent.tsx:133 | `localStorage.removeItem` removes that key only |
| BrowserState.Browser.Push | app/admin/AdminContent.tsx:139 | `router.push` appends the URL to the navigation history |
| LoginForms.RedirectTarget | app/login/LoginForm.tsx:9 | the `redirect` query value unless absent or empty, else `/admin`; never empty |
| LoginForms.CheckLogin | app/login/LoginForm.tsx:18-34 | accepted exactly for the untrimmed pair admin/admin123; a blank user ID is reported before the password; a blank password comes next; any other non-blank pair is "Invalid user ID or password" |
| LoginForms.PaddedUserIdRefused | app/login/LoginForm.tsx:28 | credentials are compared untrimmed: " admin" is refused as invalid |
| LoginForms.LoginForm.constructor | app/login/LoginForm.tsx:9-12 | the target is fixed from the query, and fields and error start empty |
| LoginForms.LoginForm.SetUserId | app/login/LoginForm.tsx:46 | the user-ID input changes only the user ID |
| LoginForms.LoginForm.SetPassword | app/login/LoginForm.tsx:56 | the password input changes only the password |
| LoginForms.LoginForm.HandleLogin | app/login/LoginForm.tsx:14-35 | on acceptance the error is cleared, the cookie `authToken=demo-admin-token` is written and the target is pushed; on rejection the error is the verdict's message and the browser is untouched |
| UserValidation.UserForm.With | app/component/AddUserForm.tsx:19-22 | the named field takes the value and every other field keeps its own |
| UserValidation.IndexOf | app/component/AddUserForm.tsx:33 | the first index of the character, or the length when it does not occur |
| UserValidation.ValidEmailIffPattern | app/component/AddUserForm.tsx:33 | the hand-written email test (no whitespace, exactly one `@` not at the start, a `.` inside the domain) accepts exactly the strings `^[^\s@]+@[^\s@]+\.[^\s@]+$` matches |
| UserValidation.EmailAcceptedIffPattern | app/component/AddUserForm.tsx:33 | the email check passes exactly when the regex matches; the blank test in front decides nothing |
| UserValidation.EmailAcceptedExample | app/component/AddUserForm.tsx:33 | `a@b.co` passes the email test |
| UserValidation.EmailRejectedExamples | app/component/AddUserForm.tsx:33 | `a@b`, `a@.b`, `@b.co`, `a@@b.co` and `a b@c.de` each fail the email test |
| UserValidation.PasswordAcceptedIff | app/component/AddUserForm.tsx:37 | read against the source's blank-or-short test: a password passes exactly when `password.trim()` is non-empty and its untrimmed length is at least 6 |
| UserValidation.MobileAcceptedIff | app/component/AddUserForm.tsx:41 | a mobile number passes exactly when it contains ten ASCII digits |
| UserValidation.MobileOnlyDigitsMatter | app/component/AddUserForm.tsx:41 | two inputs with the same digits get the same verdict, whatever other characters they hold |
| UserValidation.UserError | app/component/AddUserForm.tsx:29-44 | no error exactly when all four checks pass; otherwise the message of the first failing check in the order name, email, password, mobile |
| AddUserForms.AddUserForm.constructor | app/component/AddUserForm.tsx:11-17 | all four fields and the error start empty, and nothing has been added |
| AddUserForms.AddUserForm.HandleChange | app/component/AddUserForm.tsx:19-22 | only the named field changes |
| AddUserForms.AddUserForm.HandleSubmit | app/component/AddUserForm.tsx:24-48 | on failure the error is the first failing message and nothing else changes; on success `onAdd` receives the entered data unchanged and the fields reset to "" |
| AddUserModals.AddUserModal.constructor | app/component/AddUserModal.tsx:12-18 | all four fields and the error start empty, and no callback has been made |
| AddUserModals.AddUserModal.HandleChange | app/component/AddUserModal.tsx:20-23 | only the named field changes |
| AddUserModals.AddUserModal.HandleSubmit | app/component/AddUserModal.tsx:25-50 | the verdict and message are those of the add-user form (the same UserError); on failure no callback; on success `onAdd` with the entered data, the reset, then `onClose` |
| AddUserModals.AddUserModal.Close | app/component/AddUserModal.tsx:59 | the close and cancel buttons call `onClose` and keep the fields |
| AddNewsForms.NewsForm.With | app/component/AddNewsForm.tsx:17-20 | the named field takes the value and the other keeps its own |
| AddNewsForms.NewsError | app/component/AddNewsForm.tsx:27-38 | no error exactly when the title is not blank and the summary is not blank and at least 10 characters untrimmed; otherwise the first failing message in the order title, description, length |
| AddNewsForms.AddNewsForm.constructor | app/component/AddNewsForm.tsx:11-15 | both fields and the error start empty |
| AddNewsForms.AddNewsForm.HandleChange | app/component/AddNewsForm.tsx:17-20 | only the named field changes |
| AddNewsForms.AddNewsForm.HandleSubmit | app/component/AddNewsForm.tsx:22-42 | `onAdd` is called exactly when all checks pass, with the entered data, and then both fields reset; otherwise the first failing message is set |
| UploadMediaForms.FileAcceptedIffPrefix | app/component/UploadMediaForm.tsx:28-31 | a file is accepted exactly when its MIME type starts with the current type's prefix, and no file is accepted as both image and video |
| UploadMediaForms.UploadError | app/component/UploadMediaForm.tsx:56-64 | no error exactly when the title is not blank and a file is held; the title is checked before the file |
| UploadMediaForms.UploadMediaForm.constructor | app/component/UploadMediaForm.tsx:11-15 | starts as an image upload with no title, file, error or preview, which satisfies the invariant |
| UploadMediaForms.UploadMediaForm.SetTitle | app/component/UploadMediaForm.tsx:79 | the title input changes only the title |
| UploadMediaForms.UploadMediaForm.HandleFileChange | app/component/UploadMediaForm.tsx:17-50 | no selection clears file, preview and error; an accepted file is kept with the error cleared; a rejected one sets "Please select a valid <type> file" and clears file and preview; the invariant "a held file suits the media type" is kept |
| UploadMediaForms.UploadMediaForm.SelectMediaType | app/component/UploadMediaForm.tsx:90-111 | switching to either type clears file, preview and error and keeps the title |
| UploadMediaForms.UploadMediaForm.HandleSubmit | app/component/UploadMediaForm.tsx:52-70 | on success `onUpload` receives title, type and file, and title, file and preview reset while the type is kept; otherwise the first failing message is set |
| Admin.ParseTab | app/admin/AdminContent.tsx:37-41 | a string is adopted exactly when it is one of Users, Media, News, and names the tab it gives |
| Admin.TabQueryRoundTrip | app/admin/AdminContent.tsx:40-60 | the tab written into `/admin?tab=` is the tab read back from the query; no or an empty query selects Users |
| Admin.NewsSnapshotOf | app/admin/AdminContent.tsx:64-67 | the snapshot's summary is `summary` when truthy, else `description` |
| Admin.MediaDialogTitle | app/admin/AdminContent.tsx:222 | "Edit Media" exactly when the editing id is truthy, else "Upload Media" |
| Admin.NewsDialogTitle | app/admin/AdminContent.tsx:242 | "Edit News Article" exactly when the editing id is truthy, else "Create News Article" |
| Admin.LocalIdsDistinct | app/admin/AdminContent.tsx:121-130 | while every local entry's id is its position plus one, no two local entries share an id |
| Admin.AdminContent.constructor | app/admin/AdminContent.tsx:27-35 | Users tab, all dialogs hidden, no editing targets, an empty news list and no effects |
| Admin.AdminContent.SyncTabFromQuery | app/admin/AdminContent.tsx:39-44 | the query's tab is adopted only when it names a tab; otherwise nothing changes |
| Admin.AdminContent.Mount | app/admin/AdminContent.tsx:85-89 | the auto-fetch of `useFetchUsers()`/`useFetchNews()` (called with the default `autoFetch = true` at lines 22-23) requests users and news, then the component's own mount effect requests each of the three lists once; no state changes |
| Admin.AdminContent.HandleTabChange | app/admin/AdminContent.tsx:57-60 | sets the active tab and pushes `/admin?tab=<tab>` |
| Admin.AdminContent.OpenAddUser | app/admin/AdminContent.tsx:177 | shows the add-user dialog only |
| Admin.AdminContent.CloseAddUser | app/admin/AdminContent.tsx:213-214 | hides the add-user dialog only |
| Admin.AdminContent.HandleAddUser | app/admin/AdminContent.tsx:46-49 | refetches users and hides the add-user dialog |
| Admin.AdminContent.OnDeleteUserSuccess | app/admin/AdminContent.tsx:51-53 | refetches users and changes no state |
| Admin.AdminContent.OpenUploadMedia | app/admin/AdminContent.tsx:186-190 | shows the media dialog with the editing target and snapshot cleared |
| Admin.AdminContent.HandleEditMedia | app/admin/AdminContent.tsx:109-119 | shows the media dialog targeting the id, with a title/type/desc/image/video snapshot |
| Admin.AdminContent.CloseMediaDialog | app/admin/AdminContent.tsx:218-221 | hides the media dialog and clears its editing target and snapshot |
| Admin.AdminContent.MediaFormSuccess | app/admin/AdminContent.tsx:227-232 | refetches media, hides the dialog and clears its editing target and snapshot |
| Admin.AdminContent.CancelMediaForm | app/admin/AdminContent.tsx:233-237 | hides the media dialog and clears its editing target and snapshot |
| Admin.AdminContent.HandleUploadMedia | app/admin/AdminContent.tsx:97-100 | refetches media and hides the dialog, leaving the editing target as it was |
| Admin.AdminContent.HandleDeleteMedia | app/admin/AdminContent.tsx:102-107 | issues the delete, and refetches media only when the delete reports success |
| Admin.AdminContent.OpenCreateNews | app/admin/AdminContent.tsx:201-205 | shows the news dialog with the editing target and snapshot cleared |
| Admin.AdminContent.HandleEditNews | app/admin/AdminContent.tsx:62-69 | shows the news dialog targeting the id with its title/summary snapshot |
| Admin.AdminContent.CloseNewsDialog | app/admin/AdminContent.tsx:242 | hides the news dialog and leaves the editing target and snapshot set |
| Admin.AdminContent.CancelNewsForm | app/admin/AdminContent.tsx:247-251 | hides the news dialog and clears its editing target and snapshot |
| Admin.AdminContent.HandleNewsFormSuccess | app/admin/AdminContent.tsx:78-83 | refetches news, hides the dialog and clears its editing target and snapshot |
| Admin.AdminContent.HandleDeleteNews | app/admin/AdminContent.tsx:71-76 | issues the delete, and refetches news only when the delete reports success |
| Admin.AdminContent.ReceiveNews | app/admin/AdminContent.tsx:91-95 | fetched news replaces the list only when non-empty |
| Admin.AdminContent.HandleAddNews | app/admin/AdminContent.tsx:121-130 | appends exactly one entry with id = old length + 1 after the unchanged earlier entries, and hides the news dialog |
| Admin.AdminContent.HandleLogout | app/admin/AdminContent.tsx:131-140 | removes the stored token, deletes the `authToken` cookie and pushes `/login`; dashboard state is unchanged |
| Admin.LeaveMediaDialog | app/admin/AdminContent.tsx:218-237 | after editing, every exit from the media dialog (close, cancel, success) hides it and clears the target and snapshot, so the title computed for the hidden dialog right after the exit is "Upload Media"; only success fetches |
| Admin.LeaveNewsDialog | app/admin/AdminContent.tsx:242-251 | after editing, the news dialog's close keeps the target and snapshot while cancel clears them; right after a close, the title computed for the hidden dialog is still the edited id's |
| Admin.ReopenNewsDialog | app/admin/AdminContent.tsx:201-205 | both ways of opening the news dialog overwrite the target a close kept: after edit and close, "Create" shows "Create News Article" with no target, and editing another article carries that article's id and snapshot, so the close/cancel difference never shows in the title |
| Session.LoginThenVisit | app/login/LoginForm.tsx:28-31 | after the demo login, every path passes the guard: the login writes exactly the token the guard accepts |
| Session.GuardLoginRoundTrip | middleware.ts:9-15 | a matched path without a cookie is redirected with itself as `redirect`; the login form returns to exactly that path, which then passes |
| Session.WrongPasswordThenVisit | app/login/LoginForm.tsx:32-34 | a wrong password sets an error, writes no cookie, and the guard still redirects |
| Session.LogoutThenVisit | app/admin/AdminContent.tsx:131-140 | after logout the stored token is gone and every navigation to a path the matcher selects is redirected to login with its path preserved |

## Left out

- The data hooks under `app/hooks/` (fetch, create, edit, delete, upload, login requests) are network clients and are not part of this model. Their outcomes enter as parameters (`success` of a delete, the fetched news list) or as logged effects.
- URL handling: the guard's `new URL("/login", …)` with `searchParams.set` percent-encodes the path, and the login page decodes it again. The model carries the path itself, so it assumes that encoding round trip.
- Cookie strings: the attributes `path=/`, `max-age=0` and `SameSite=Lax` are not modelled. A write sets one name in the jar, and an expiry deletes it.
- The framework's full matcher semantics (path normalisation, trailing slashes) are left out. `Matched` is `/admin` itself or anything under `/admin/`.
- UploadMediaForms.UploadMediaForm.HandleFileChange: for an accepted image, the preview is left as it was. The asynchronous `FileReader` that later sets it to a data URL is a browser API outside the model.
- Admin.AdminContent.HandleAddNews: the date comes in as a parameter. The clock read `new Date().toISOString()` is not modelled.
- The rendering-only prop `isOpen` of the add-user modal and all presentational components are left out. This includes the lists, the header, the home page and the `confirm()` dialogs.
- React batches state updates and re-renders asynchronously. Each handler is modelled as one sequential update.
- The dashboard passes props that the forms do not declare. These are `mediaId`/`initialData`/`isEditing`/`onSuccess` to the upload form and `newsId`/`initialData`/`onSuccess` to the news form. Each form is modelled against its own props, and the dashboard's `onSuccess`/`onCancel` handlers are modelled as dashboard methods. The dashboard passes no `onUpload`, and neither form calls `onSuccess`, so `Admin.AdminContent.HandleUploadMedia`, `Admin.AdminContent.MediaFormSuccess` and `Admin.AdminContent.HandleNewsFormSuccess` are never reached by the program as written; they are modelled as the handlers they would be.
- The environment-based API base URL and the deployment configuration are left out.
- Lengths: a string here is a sequence of Unicode characters, while JavaScript's `.length` counts UTF-16 code units. So the password minimum (6) and the summary minimum (10) are counted per character. They differ from the browser's count only for characters outside the Basic Multilingual Plane.
- Admin.AdminContent.Mount: the second request for users and news, made by the hooks' auto-fetch, is logged as an effect only. The hooks' own loading and error state is not modelled.
