/**
 * The host page of `frontend/packages/passwordless-app/src/PasswordlessApp.js`:
 * a two-page switch from `login` to `main`, driven by the `loginSuccessful`
 * event of the login form it renders.  Composed with the form's step
 * function it gives a run of the whole client over a sequence of actions.
 */
module PasswordlessAppComponent {
  import opened Options
  import opened AuthService
  import opened LoginFormComponent

  const LoginPage: string := "login"
  const MainPage: string := "main"

  /** The title the page gives the login form it renders. */
  const FormTitle: string := "Passwordless Login"

  /** The two things `render` can show. */
  datatype AppView = LoggedInView | LoginFormView(title: string)

  /** `render`: the logged-in view exactly on page `main`; any other page shows the login form. */
  function Render(page: string): (v: AppView)
    ensures v == LoggedInView <==> page == MainPage
    ensures v != LoggedInView ==> v == LoginFormView(FormTitle)
  {
    if page == MainPage then LoggedInView else LoginFormView(FormTitle)
  }

  /**
   * The listener bound on the rendered form.  Only `loginSuccessful` is
   * wired (to `_onLoginSuccessful`), so `loginFailed`, or no event, leaves the
   * page as it was.
   */
  function Deliver(page: string, e: Option<Event>): (p: string)
    ensures e == Some(LoginSuccessful) ==> p == MainPage
    ensures e != Some(LoginSuccessful) ==> p == page
  {
    if e == Some(LoginSuccessful) then MainPage else page
  }

  /** The page and the form it hosts. */
  datatype AppState = AppState(page: string, form: FormState)

  /** A fresh page over a fresh form whose client is in session `s`. */
  function Start(s: Session): (st: AppState)
  {
    AppState(LoginPage, Initial(s))
  }

  /**
   * Whether an action reaches the form: clicks only while the form is
   * rendered (any page but `main`); its timers fire regardless.
   */
  predicate Reaches(st: AppState, a: Action)
  {
    Render(st.page) != LoggedInView || a.TimeoutFired?
  }

  /** The code form is on screen, the code is submitted, and `confirmLogin` returns true. */
  predicate Accepts(st: AppState, a: Action)
  {
    && st.page != MainPage
    && st.form.mode == Code
    && a.CodeSubmitted?
    && ConfirmLoginStep(st.form.session, a.code, a.answer).result
  }

  /** One action on the page: the form handles it and its event is delivered to the page. */
  function AppStep(st: AppState, a: Action): (t: AppState)
    ensures !Reaches(st, a) ==> t == st
    ensures Reaches(st, a) ==> t.form == ActionStep(st.form, a).form
    ensures t.page == MainPage <==> st.page == MainPage || Accepts(st, a)
    ensures t.page == st.page || t.page == MainPage
  {
    if !Reaches(st, a) then st
    else
      var r := ActionStep(st.form, a);
      AppState(Deliver(st.page, r.emitted), r.form)
  }

  /** The state after a sequence of actions, the last one applied last. */
  function Run(st: AppState, acts: seq<Action>): (t: AppState)
    decreases |acts|
  {
    if acts == [] then st else AppStep(Run(st, acts[..|acts| - 1]), acts[|acts| - 1])
  }

  /**
   * The page reaches `main` exactly when some code submission succeeded
   * on the way (or it was there already), and never leaves it.
   */
  lemma {:induction false} MainExactlyAfterAcceptedCode(st: AppState, acts: seq<Action>)
    ensures Run(st, acts).page == MainPage
        <==> st.page == MainPage || exists i :: 0 <= i < |acts| && Accepts(Run(st, acts[..i]), acts[i])
  {
    if acts != [] {
      var n := |acts| - 1;
      var front := acts[..n];
      MainExactlyAfterAcceptedCode(st, front);
      assert forall i :: 0 <= i < n ==> front[..i] == acts[..i] && front[i] == acts[i];
      assert acts[..n] == front;
      if Run(st, acts).page == MainPage && st.page != MainPage {
        if Accepts(Run(st, front), acts[n]) {
          assert Accepts(Run(st, acts[..n]), acts[n]);
        } else {
          var i :| 0 <= i < n && Accepts(Run(st, front[..i]), front[i]);
          assert Accepts(Run(st, acts[..i]), acts[i]);
        }
      }
      if exists i :: 0 <= i < |acts| && Accepts(Run(st, acts[..i]), acts[i]) {
        var i :| 0 <= i < |acts| && Accepts(Run(st, acts[..i]), acts[i]);
        if i < n {
          assert Accepts(Run(st, front[..i]), front[i]);
        }
      }
    }
  }

  /** Whenever the page shows `main`, the client's session is authenticated. */
  lemma {:induction false} MainMeansAuthenticated(st: AppState, acts: seq<Action>)
    requires st.page == MainPage ==> st.form.session.authenticated
    ensures Run(st, acts).page == MainPage ==> Run(st, acts).form.session.authenticated
  {
    if acts != [] {
      MainMeansAuthenticated(st, acts[..|acts| - 1]);
    }
  }

  /** Along any run, every displayed error has a pending timer that will clear it. */
  lemma {:induction false} BannerAlwaysClears(st: AppState, acts: seq<Action>)
    requires BannerClears(st.form)
    ensures BannerClears(Run(st, acts).form)
  {
    if acts != [] {
      var prev := Run(st, acts[..|acts| - 1]);
      BannerAlwaysClears(st, acts[..|acts| - 1]);
      ActionKeepsBannerClearing(prev.form, acts[|acts| - 1]);
    }
  }

  /** Once the code form is shown, no action leads away from it. */
  lemma {:induction false} CodeFormIsFinal(st: AppState, acts: seq<Action>)
    requires st.form.mode == Code
    ensures Run(st, acts).form.mode == Code
  {
    if acts != [] {
      CodeFormIsFinal(st, acts[..|acts| - 1]);
    }
  }

  /** Ask for a code (200), then submit it (200): the page shows `main`. */
  lemma CodeLoginScenario()
    ensures var acts := [GetLoginCodeClicked(true, "test@example.com", Status(200)),
                         CodeSubmitted("123456", Status(200))];
            Run(Start(SignedOut), acts[..1]).form.mode == Code
            && Run(Start(SignedOut), acts) == AppState(MainPage, FormState(Code, Banner("", false), [], Session("test@example.com", true)))
  {
  }

  /** Register (201) and the automatic code request (200): the code form is shown. */
  lemma RegisterScenario()
    ensures Run(Start(SignedOut), [RegisterModeClicked, RegisterSubmitted("new@example.com", Status(201), Status(200))])
         == AppState(LoginPage, FormState(Code, Banner("", false), [], Session("new@example.com", false)))
  {
  }

  /** A failed registration (400) shows "Registration Failed" and stays in register mode. */
  lemma RegistrationFailureScenario()
    ensures Run(Start(SignedOut), [RegisterModeClicked, RegisterSubmitted("new@example.com", Status(400), Status(200))])
         == AppState(LoginPage, FormState(Register, Banner(RegistrationFailed, true), [DefaultErrorTimeout], SignedOut))
  {
  }

  /** The page element.  `form` is the login form its template renders. */
  class PasswordlessApp {
    var page: string
    const form: LoginForm

    /** The state value of the page, its form and the form's client. */
    function State(): (st: AppState)
      reads this, form, form.auth
    {
      AppState(page, form.State())
    }

    /** The page over the fresh login form its template renders. */
    constructor (form: LoginForm)
      requires form.State() == Initial(form.auth.Current())
      ensures page == LoginPage && this.form == form
      ensures State() == Start(form.auth.Current())
    {
      this.form := form;
      page := LoginPage;
    }

    /** `_onLoginSuccessful`: the page becomes `main`; calling it again leaves it there. */
    method OnLoginSuccessful()
      modifies this
      ensures page == MainPage
    {
      page := MainPage;
    }

    /** An event the form dispatched, through the listener the template binds. */
    method Dispatch(e: Event)
      modifies this
      ensures page == Deliver(old(page), Some(e))
    {
      if e == LoginSuccessful {
        OnLoginSuccessful();
      }
    }

    /** An action on the page: handled by the form when it reaches it, its event then dispatched. */
    method Perform(a: Action)
      modifies this, form, form.auth
      ensures State() == AppStep(old(State()), a)
      ensures form.title == old(form.title)
      ensures form.auth.requests
           == old(form.auth.requests) + (if Reaches(old(State()), a) then ActionStep(old(State()).form, a).sent else [])
    {
      if !Reaches(State(), a) {
        return;
      }
      var e := form.Perform(a);
      if e.Some? {
        Dispatch(e.value);
      }
    }
  }
}
