/**
 * The login form of `frontend/packages/login-form/src/LoginForm.js`: a mode
 * (which form is shown), an error banner with its pending clear timers, and
 * the auth client it calls.  The pure part (`RenderMode`, which buttons each
 * form offers) is written as functions; each handler is specified by a step
 * function over a `FormState` value, and the class `LoginForm` holds the
 * mutable fields and is proved against those step functions.
 */
module LoginFormComponent {
  import opened Options
  import opened AuthService

  /** The `modes` of the form; `Other` stands for any other value `_setMode` may be given. */
  datatype Mode = Email | Code | Register | Other(tag: string)

  /** The three templates `_renderMode` chooses between. */
  datatype View = EmailForm | CodeForm | RegisterForm

  /** The error banner: its text content and whether it is displayed. */
  datatype Banner = Banner(text: string, visible: bool)

  /** The events the form dispatches to its host. */
  datatype Event = LoginSuccessful | LoginFailed

  const CouldNotLogIn: string := "Could not log in with this email"
  const RegistrationFailed: string := "Registration Failed"
  const DefaultErrorTimeout: nat := 5000
  const DefaultTitle: string := "Login"

  /**
   * Everything the handlers read or write: the mode, the banner, the delays
   * of the clear timers still pending, and the session of the auth client.
   */
  datatype FormState = FormState(mode: Mode, banner: Banner, timers: seq<nat>, session: Session)

  /** What one handler does: the new state, the event it dispatched, the requests it issued. */
  datatype FormReply = FormReply(form: FormState, emitted: Option<Event>, sent: seq<Request>)

  /** A fresh form: email mode, a hidden empty banner, no timer, and the session of its client. */
  function Initial(s: Session): (f: FormState)
  {
    FormState(Email, Banner("", false), [], s)
  }

  /** `_renderMode`: the code form for `code`, the register form for `register`, and the email form otherwise. */
  function RenderMode(m: Mode): (v: View)
    ensures v == CodeForm <==> m == Code
    ensures v == RegisterForm <==> m == Register
    ensures v == EmailForm <==> m == Email || m.Other?
  {
    match m
    case Code => CodeForm
    case Register => RegisterForm
    case Email => EmailForm
    case Other(_) => EmailForm
  }

  /**
   * `_setError(message, timeout)`: the message is appended to whatever the
   * banner still shows, the banner is displayed, and one more clear timer is
   * pending.  Mode and session are untouched.
   */
  function SetErrorStep(f: FormState, message: string, timeout: nat): (g: FormState)
    ensures g.banner.visible && g.banner.text == f.banner.text + message
    ensures g.timers == f.timers + [timeout]
    ensures g.mode == f.mode && g.session == f.session
  {
    f.(banner := Banner(f.banner.text + message, true), timers := f.timers + [timeout])
  }

  /**
   * The callback of the `index`-th pending timer fires: the banner is hidden
   * and emptied, whatever message it shows, and that timer is gone.
   */
  function TimeoutStep(f: FormState, index: nat): (g: FormState)
    requires index < |f.timers|
    ensures g.banner == Banner("", false)
    ensures |g.timers| == |f.timers| - 1
    ensures g.timers == f.timers[..index] + f.timers[index + 1..]
    ensures g.mode == f.mode && g.session == f.session
  {
    f.(banner := Banner("", false), timers := f.timers[..index] + f.timers[index + 1..])
  }

  /**
   * `_getLoginCode`.  `validity` is the truth value of the input's
   * `validity` property: when false the handler does nothing at all.
   * Otherwise it asks for a code; on success the form switches to code mode,
   * on failure it keeps its mode and shows "Could not log in with this email".
   */
  function GetLoginCodeStep(f: FormState, validity: bool, email: string, o: Outcome): (r: FormReply)
    ensures !validity ==> r == FormReply(f, None, [])
    ensures validity ==> var a := RequestLoginStep(f.session, email, o);
      && r.sent == a.sent
      && r.form.session == a.session
      && (a.result ==> r.form.mode == Code && r.form.banner == f.banner && r.form.timers == f.timers)
      && (!a.result ==> r.form == SetErrorStep(f.(session := a.session), CouldNotLogIn, DefaultErrorTimeout))
    ensures r.emitted == None
  {
    if !validity then FormReply(f, None, [])
    else
      var a := RequestLoginStep(f.session, email, o);
      var g := f.(session := a.session);
      if a.result then FormReply(g.(mode := Code), None, a.sent)
      else FormReply(SetErrorStep(g, CouldNotLogIn, DefaultErrorTimeout), None, a.sent)
  }

  /**
   * `_register`.  A failed registration shows "Registration Failed" and asks
   * for no code.  A successful one asks for a code for the same email, and
   * then either switches to code mode or shows "Could not log in with this
   * email".  The mode changes only when both calls succeed.
   */
  function RegisterSubmitStep(f: FormState, email: string, registered: Outcome, requested: Outcome): (r: FormReply)
    ensures var reg := RegisterStep(f.session, email, registered);
      && (!reg.result ==> r == FormReply(SetErrorStep(f, RegistrationFailed, DefaultErrorTimeout), None, reg.sent))
      && (reg.result ==>
            var req := RequestLoginStep(reg.session, email, requested);
            && r.sent == reg.sent + req.sent
            && r.form.session == req.session
            && (req.result ==> r.form == f.(mode := Code, session := req.session))
            && (!req.result ==> r.form == SetErrorStep(f.(session := req.session), CouldNotLogIn, DefaultErrorTimeout)))
    ensures r.form.mode == Code || r.form.mode == f.mode
    ensures r.form.mode != f.mode ==> registered == Status(201) && requested == Status(200)
    ensures r.emitted == None
  {
    var reg := RegisterStep(f.session, email, registered);
    if !reg.result then
      FormReply(SetErrorStep(f, RegistrationFailed, DefaultErrorTimeout), None, reg.sent)
    else
      var req := RequestLoginStep(reg.session, email, requested);
      var g := f.(session := req.session);
      if req.result then FormReply(g.(mode := Code), None, reg.sent + req.sent)
      else FormReply(SetErrorStep(g, CouldNotLogIn, DefaultErrorTimeout), None, reg.sent + req.sent)
  }

  /**
   * `_submitCode`: confirms the code and dispatches exactly one event,
   * `loginSuccessful` when the confirmation succeeded and `loginFailed`
   * otherwise.  Mode and banner never change.
   */
  function SubmitCodeStep(f: FormState, code: string, o: Outcome): (r: FormReply)
    ensures var c := ConfirmLoginStep(f.session, code, o);
      && r.form == f.(session := c.session)
      && r.sent == c.sent
      && r.emitted == Some(if c.result then LoginSuccessful else LoginFailed)
    ensures r.emitted == Some(LoginSuccessful) <==> o == Status(200)
  {
    var c := ConfirmLoginStep(f.session, code, o);
    FormReply(f.(session := c.session), Some(if c.result then LoginSuccessful else LoginFailed), c.sent)
  }

  /**
   * What can happen to a form: a click on one of its buttons (with the values
   * in its input and the answers of the calls it makes), or a clear timer
   * firing.
   */
  datatype Action =
    | GetLoginCodeClicked(validity: bool, email: string, answer: Outcome)
    | RegisterModeClicked
    | RegisterSubmitted(email: string, registerAnswer: Outcome, requestAnswer: Outcome)
    | LoginModeClicked
    | CodeSubmitted(code: string, answer: Outcome)
    | TimeoutFired(index: nat)

  /** The buttons each template renders: an action is possible only while its button is shown. */
  predicate Offered(v: View, a: Action)
  {
    match a
    case GetLoginCodeClicked(_, _, _) => v == EmailForm
    case RegisterModeClicked => v == EmailForm
    case CodeSubmitted(_, _) => v == CodeForm
    case RegisterSubmitted(_, _, _) => v == RegisterForm
    case LoginModeClicked => v == RegisterForm
    case TimeoutFired(_) => true
  }

  /** Whether an action can happen in a state: its button is shown, or its timer is pending. */
  predicate Enabled(f: FormState, a: Action)
  {
    if a.TimeoutFired? then a.index < |f.timers| else Offered(RenderMode(f.mode), a)
  }

  /**
   * One action on the form, dispatched to the handler its button is bound
   * to.  The Register button goes from email to register mode and the Login
   * button back; the code form can never be left; only a code submission
   * dispatches an event, and `loginSuccessful` exactly when the code form
   * was shown and the server answered 200.
   */
  function ActionStep(f: FormState, a: Action): (r: FormReply)
    ensures !Enabled(f, a) ==> r == FormReply(f, None, [])
    ensures Enabled(f, a) && a == RegisterModeClicked ==> r.form == f.(mode := Register) && r.sent == []
    ensures Enabled(f, a) && a == LoginModeClicked ==> r.form == f.(mode := Email) && r.sent == []
    ensures f.mode == Code ==> r.form.mode == Code
    ensures r.emitted.Some? ==> f.mode == Code && a.CodeSubmitted?
    ensures r.emitted == Some(LoginSuccessful) <==> f.mode == Code && a.CodeSubmitted? && a.answer == Status(200)
  {
    if !Enabled(f, a) then FormReply(f, None, [])
    else
      match a
      case GetLoginCodeClicked(validity, email, o) => GetLoginCodeStep(f, validity, email, o)
      case RegisterModeClicked => FormReply(f.(mode := Register), None, [])
      case RegisterSubmitted(email, ro, lo) => RegisterSubmitStep(f, email, ro, lo)
      case LoginModeClicked => FormReply(f.(mode := Email), None, [])
      case CodeSubmitted(code, o) => SubmitCodeStep(f, code, o)
      case TimeoutFired(i) => FormReply(TimeoutStep(f, i), None, [])
  }

  /**
   * The banner never gets stuck: a hidden banner is empty, and a displayed
   * one has a clear timer pending.
   */
  predicate BannerClears(f: FormState)
  {
    (!f.banner.visible ==> f.banner.text == "") && (f.banner.visible ==> |f.timers| > 0)
  }

  lemma InitialBannerClears(s: Session)
    ensures BannerClears(Initial(s))
  {
  }

  lemma ActionKeepsBannerClearing(f: FormState, a: Action)
    requires BannerClears(f)
    ensures BannerClears(ActionStep(f, a).form)
  {
  }

  /** The form element.  Its `auth` is the client it calls, passed in instead of a module singleton. */
  class LoginForm {
    var title: string
    var mode: Mode
    var errorText: string
    var errorVisible: bool
    var timers: seq<nat>
    const auth: Auth

    /** The state value of this form and its client. */
    function State(): (f: FormState)
      reads this, auth
    {
      FormState(mode, Banner(errorText, errorVisible), timers, auth.Current())
    }

    constructor (auth: Auth)
      ensures this.auth == auth
      ensures title == DefaultTitle
      ensures State() == Initial(auth.Current())
    {
      this.auth := auth;
      title := DefaultTitle;
      mode := Email;
      errorText := "";
      errorVisible := false;
      timers := [];
    }

    /** `_setMode`: the mode changes and nothing else does. */
    method SetMode(m: Mode)
      modifies this
      ensures State() == old(State()).(mode := m) && title == old(title)
    {
      mode := m;
    }

    method SetError(message: string, timeout: nat := DefaultErrorTimeout)
      modifies this
      ensures State() == SetErrorStep(old(State()), message, timeout) && title == old(title)
    {
      errorText := errorText + message;
      errorVisible := true;
      timers := timers + [timeout];
    }

    /** The callback `_setError` scheduled, for the `index`-th pending timer. */
    method FireTimer(index: nat)
      requires index < |timers|
      modifies this
      ensures State() == TimeoutStep(old(State()), index) && title == old(title)
    {
      errorVisible := false;
      errorText := "";
      timers := timers[..index] + timers[index + 1..];
    }

    method GetLoginCode(validity: bool, email: string, o: Outcome)
      modifies this, auth
      ensures var r := GetLoginCodeStep(old(State()), validity, email, o);
              State() == r.form && auth.requests == old(auth.requests) + r.sent && title == old(title)
    {
      if !validity {
        return;
      }
      var success := auth.RequestLogin(email, o);
      if success {
        SetMode(Code);
      } else {
        SetError(CouldNotLogIn);
      }
    }

    method Register(email: string, registered: Outcome, requested: Outcome)
      modifies this, auth
      ensures var r := RegisterSubmitStep(old(State()), email, registered, requested);
              State() == r.form && auth.requests == old(auth.requests) + r.sent && title == old(title)
    {
      var success := auth.Register(email, registered);
      if success {
        var loginSuccess := auth.RequestLogin(email, requested);
        if loginSuccess {
          SetMode(Code);
        } else {
          SetError(CouldNotLogIn);
        }
      } else {
        SetError(RegistrationFailed);
      }
    }

    method SubmitCode(code: string, o: Outcome) returns (event: Event)
      modifies this, auth
      ensures var r := SubmitCodeStep(old(State()), code, o);
              State() == r.form && Some(event) == r.emitted
              && auth.requests == old(auth.requests) + r.sent && title == old(title)
    {
      var success := auth.ConfirmLogin(code, o);
      if success {
        event := LoginSuccessful;
      } else {
        event := LoginFailed;
      }
    }

    /** An action on the rendered form, dispatched through the buttons' click bindings. */
    method Perform(a: Action) returns (event: Option<Event>)
      modifies this, auth
      ensures var r := ActionStep(old(State()), a);
              State() == r.form && event == r.emitted
              && auth.requests == old(auth.requests) + r.sent && title == old(title)
    {
      if !Enabled(State(), a) {
        return None;
      }
      match a
      case GetLoginCodeClicked(validity, email, o) =>
        GetLoginCode(validity, email, o);
        event := None;
      case RegisterModeClicked =>
        SetMode(Mode.Register);
        event := None;
      case RegisterSubmitted(email, ro, lo) =>
        Register(email, ro, lo);
        event := None;
      case LoginModeClicked =>
        SetMode(Email);
        event := None;
      case CodeSubmitted(code, o) =>
        var e := SubmitCode(code, o);
        event := Some(e);
      case TimeoutFired(i) =>
        FireTimer(i);
        event := None;
    }
  }
}
