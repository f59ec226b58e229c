# Passwordless login client — a Dafny model

This project models the browser side of a passwordless login: the
authentication client `Auth` (`frontend/services/auth.js`), the `LoginForm`
element with its mode machine and error banner
(`frontend/packages/login-form/src/LoginForm.js`), and the `PasswordlessApp`
page that switches from `login` to `main` when the form reports a successful
login (`frontend/packages/passwordless-app/src/PasswordlessApp.js`).

No I/O is modelled. Each network call is replaced by the answer it received,
an `Outcome`: `Status(n)`, or `NetworkError` when `fetch` throws. Every
operation has a pure step function over a value (`Session`, `FormState`,
`AppState`). That function also returns the requests the call put on the
wire. The three classes `Auth`, `LoginForm` and `PasswordlessApp` hold the
fields the source mutates. Their methods are imperative and are proved
against the step functions. `Auth.requests` is a ghost log of the issued
requests. It lets the contracts say "no request is sent" and "the
confirmation carries the session email". `AppStep` composes the form with the
page, and `Run` folds it over a sequence of user actions and timer firings.
The trace lemmas are about `Run`.

Files: `options.dfy` (an `Option` type), `auth_service.dfy`,
`login_form.dfy` and `passwordless_app.dfy`, one module per source file.

Points where the model follows the code rather than the form's tests or the
usual reading of the page:
- The code appends each error message to the banner (`appendChild`). Two
  errors inside the timeout therefore show both texts, not just the last one.
  The first timer to fire clears the banner, including any later message.
- The form's tests click a `get-link-button` that calls a stubbed
  `auth.requestLoginLink` and expect an "Email Sent" alert. They also expect
  an empty code to be refused with "Please enter a code.". The code has no
  link button, no `requestLoginLink` and no link flow of any kind, and it has
  no empty-code check. None of these are modelled.
- The form calls `auth.requestLogin`. The form's tests stub a
  `requestLoginCode` that the client does not define.

## Model

| member | source | states |
|---|---|---|
| AuthService.Auth.constructor | frontend/services/auth.js:14-17 | a new client has email `""`, is not authenticated, and has sent nothing |
| AuthService.RequestLoginStep | frontend/services/auth.js:19-33 | POSTs `{email}` to `/auth/request`; returns true iff the status is 200, and then the session email is the argument; otherwise (other status, network error) the session is unchanged; the authenticated flag is never touched |
| AuthService.Auth.RequestLogin | frontend/services/auth.js:19-33 | new fields, return value and issued request are exactly those of `RequestLoginStep` on the old fields |
| AuthService.ConfirmLoginStep | frontend/services/auth.js:35-52 | POSTs `{email: session email, code}` to `/auth/confirm`; returns true iff the status is 200; the authenticated flag becomes the returned value (errors and other statuses force it false); email unchanged |
| AuthService.Auth.ConfirmLogin | frontend/services/auth.js:35-52 | new fields, result and request are those of `ConfirmLoginStep` |
| AuthService.RegisterStep | frontend/services/auth.js:54-68 | POSTs `{email}` to `/auth/register`; returns true iff the status is 201 (not 200); on success the email is the argument, otherwise the session is unchanged; the authenticated flag is never touched |
| AuthService.Auth.Register | frontend/services/auth.js:54-68 | new fields, result and request are those of `RegisterStep` |
| AuthService.SignOutStep | frontend/services/auth.js:70-83 | GETs `/auth/sign-out`; returns true iff the status is 200 or 401, and then the session is `("", false)`; otherwise both fields are unchanged |
| AuthService.Auth.SignOut | frontend/services/auth.js:70-83 | new fields, result and request are those of `SignOutStep` |
| AuthService.UserDetailsStep | frontend/services/auth.js:85-103 | unauthenticated: returns null, sends nothing, changes nothing; authenticated: GETs `/auth/me`, returns the profile iff status 200 and the body parses, a 401 clears both fields, anything else keeps the session |
| AuthService.Auth.UserDetails | frontend/services/auth.js:85-103 | new fields, result and requests are those of `UserDetailsStep` |
| AuthService.ConfirmSendsRequestedEmail | frontend/services/auth.js:19-40 | after a successful code request for `e`, the confirmation sent is `{email: e, code}` |
| AuthService.SignedOutSessionSendsNothing | frontend/services/auth.js:70-88 | after a successful sign-out, a profile request returns null without issuing any request |
| AuthService.UnauthorizedProfileSendsNothing | frontend/services/auth.js:85-97 | after `/auth/me` answers 401 on an authenticated session, the next profile request returns null without issuing any request |
| AuthService.SignOutIdempotent | frontend/services/auth.js:70-83 | once signed out, the session stays signed out whatever `/auth/sign-out` answers next, failures included |
| LoginFormComponent.RenderMode | frontend/packages/login-form/src/LoginForm.js:62-72 | code form iff mode `code`, register form iff mode `register`, email form iff mode `email` or any other value |
| LoginFormComponent.SetErrorStep | frontend/packages/login-form/src/LoginForm.js:79-83 | the message is appended to the banner text, the banner is displayed, one more clear timer is pending; mode and session unchanged |
| LoginFormComponent.TimeoutStep | frontend/packages/login-form/src/LoginForm.js:83-86 | when a pending timer fires the banner is hidden with text `""` and that timer is removed; mode and session unchanged |
| LoginFormComponent.GetLoginCodeStep | frontend/packages/login-form/src/LoginForm.js:89-101 | falsy validity: no request, no change at all; otherwise success of `requestLogin` switches to code mode with the banner untouched, failure keeps the mode and sets "Could not log in with this email" |
| LoginFormComponent.RegisterSubmitStep | frontend/packages/login-form/src/LoginForm.js:103-116 | failed register: error "Registration Failed", only the register request sent, mode unchanged; success: `requestLogin` with the same email follows, code mode on its success, "Could not log in with this email" and unchanged mode on its failure |
| LoginFormComponent.SubmitCodeStep | frontend/packages/login-form/src/LoginForm.js:118-127 | exactly one event, `loginSuccessful` iff `confirmLogin` returned true (status 200), else `loginFailed`; mode and banner unchanged |
| LoginFormComponent.ActionStep | frontend/packages/login-form/src/LoginForm.js:129-169 | the buttons each template renders are given by `Offered` (email form: Get Login Code and Register; code form: Submit Login Code; register form: Register and Login); an action whose button is not rendered changes nothing; Register button: `email` to `register`; Login button: `register` to `email`; the code form is never left; `loginSuccessful` iff a code is submitted from the code form and answered 200 |
| LoginFormComponent.InitialBannerClears | frontend/packages/login-form/src/LoginForm.js:38-60 | a new form satisfies the banner invariant (a hidden banner is empty, a shown banner has a pending clear timer) |
| LoginFormComponent.ActionKeepsBannerClearing | frontend/packages/login-form/src/LoginForm.js:79-87 | every action keeps the invariant "a hidden banner is empty and a shown banner has a pending clear timer" |
| LoginFormComponent.LoginForm.constructor | frontend/packages/login-form/src/LoginForm.js:56-60 | title `Login`, mode `email`, hidden empty banner, no timers, the given client |
| LoginFormComponent.LoginForm.SetMode | frontend/packages/login-form/src/LoginForm.js:74-77 | the mode becomes the argument and nothing else changes |
| LoginFormComponent.LoginForm.SetError | frontend/packages/login-form/src/LoginForm.js:79-87 | the new state is `SetErrorStep` of the old one, default timeout 5000 |
| LoginFormComponent.LoginForm.FireTimer | frontend/packages/login-form/src/LoginForm.js:83-86 | the new state is `TimeoutStep` of the old one |
| LoginFormComponent.LoginForm.GetLoginCode | frontend/packages/login-form/src/LoginForm.js:89-101 | new form and client state and issued requests are those of `GetLoginCodeStep` |
| LoginFormComponent.LoginForm.Register | frontend/packages/login-form/src/LoginForm.js:103-116 | new state and issued requests are those of `RegisterSubmitStep` |
| LoginFormComponent.LoginForm.SubmitCode | frontend/packages/login-form/src/LoginForm.js:118-127 | new state, dispatched event and requests are those of `SubmitCodeStep` |
| LoginFormComponent.LoginForm.Perform | frontend/packages/login-form/src/LoginForm.js:129-169 | a click through the template bindings, or a timer firing, does what `ActionStep` says |
| PasswordlessAppComponent.Render | frontend/packages/passwordless-app/src/PasswordlessApp.js:32-47 | the logged-in view iff the page is `main`; any other page shows the login form titled "Passwordless Login" |
| PasswordlessAppComponent.Deliver | frontend/packages/passwordless-app/src/PasswordlessApp.js:41-44 | `loginSuccessful` sets the page to `main`; `loginFailed` or no event leaves the page unchanged |
| PasswordlessAppComponent.AppStep | frontend/packages/passwordless-app/src/PasswordlessApp.js:26-47 | clicks do nothing once the page is `main`; the page becomes `main` iff it was `main` or a code submitted from the code form was confirmed; the page never leaves `main` |
| PasswordlessAppComponent.MainExactlyAfterAcceptedCode | frontend/packages/passwordless-app/src/PasswordlessApp.js:26-47 | along any sequence of actions, the page shows `main` exactly when it started there or some earlier code submission was confirmed |
| PasswordlessAppComponent.MainMeansAuthenticated | frontend/packages/passwordless-app/src/PasswordlessApp.js:26-30 | whenever the page shows `main`, the client's session is authenticated |
| PasswordlessAppComponent.BannerAlwaysClears | frontend/packages/login-form/src/LoginForm.js:79-87 | along any run, every displayed error still has a timer pending that will clear it |
| PasswordlessAppComponent.CodeFormIsFinal | frontend/packages/login-form/src/LoginForm.js:118-155 | once the form switched to code mode, no sequence of actions changes its mode |
| PasswordlessAppComponent.CodeLoginScenario | frontend/packages/login-form/test/login-form.test.js:287-304 | code request (200) shows the code form; code `123456` confirmed (200) leads to page `main` with an authenticated session |
| PasswordlessAppComponent.RegisterScenario | frontend/packages/login-form/test/login-form.test.js:185-208 | register (201) then the automatic code request (200) lands on the code form |
| PasswordlessAppComponent.RegistrationFailureScenario | frontend/packages/login-form/test/login-form.test.js:210-230 | register answered 400: banner "Registration Failed", still in register mode |
| PasswordlessAppComponent.PasswordlessApp.constructor | frontend/packages/passwordless-app/src/PasswordlessApp.js:13-16 | a new page is `login` over the fresh form its template renders, so its state is `Start` of the client's session |
| PasswordlessAppComponent.PasswordlessApp.OnLoginSuccessful | frontend/packages/passwordless-app/src/PasswordlessApp.js:26-30 | the page becomes `main`, whatever it was, so a second call changes nothing |
| PasswordlessAppComponent.PasswordlessApp.Dispatch | frontend/packages/passwordless-app/src/PasswordlessApp.js:41-44 | an event from the form changes the page as `Deliver` says |
| PasswordlessAppComponent.PasswordlessApp.Perform | frontend/packages/passwordless-app/src/PasswordlessApp.js:32-47 | one action on the page does what `AppStep` says, and the client sends what the form handler sends |

## Left out

- Network plumbing (`sendData`, `fetch`, `JSON.stringify`, `response.json()`): replaced by the `Outcome` input. The parsed profile is an `Option<Profile>` input, `None` when parsing throws.
- The base URL: it is imported from `../config`, which is not part of this model. Requests carry only the path.
- The module-level singleton `auth`: the form is given its `Auth` object explicitly.
- Lit rendering: templates, CSS, `requestUpdate`, the reflected `title` attribute, `console.log` and `CustomEvent` objects. Events are values that the handlers return.
- `setTimeout` scheduling and real time. Each `_setError` adds a pending timer with its delay. Any pending timer may fire (`TimeoutFired(i)`), in any order.
- The `validity` check: the model takes the truth value of `$emailInput.validity` as a boolean input. In a browser that property is a `ValidityState` object, which is always truthy.
- Concurrency: overlapping asynchronous calls are not modelled. Each handler runs to completion before the next action.
- The link request (`requestLoginLink` via `get-link-button`, the "Email Sent" alert) and the "Please enter a code." check. The form's tests expect them, but the code has none of them.
- The Python backend under `app/`: the token store, hashing, JWTs, mail sending and the HTTP routes.
- PasswordlessAppComponent.Render: it does not model passing the title to the form's `title` property. The form model keeps its default title.
