/**
 * The authentication client of `frontend/services/auth.js`.
 *
 * Every remote call is replaced by the answer it got: an `Outcome` (an HTTP
 * status, or the error `fetch` threw).  Each operation is specified by a pure
 * step function over a `Session` value, which also says which request the
 * call put on the wire; the class `Auth` holds the two fields the source
 * mutates and its methods are proved against those step functions.
 */
module AuthService {
  import opened Options

  /** The answer to one request: its HTTP status, or a thrown network error. */
  datatype Outcome = Status(code: int) | NetworkError

  datatype Verb = Get | Post

  /** The JSON body of a request. */
  datatype Body = NoBody | EmailBody(email: string) | EmailCodeBody(email: string, code: string)

  /** A request as `sendData` or `fetch` puts it on the wire, relative to the configured base URL. */
  datatype Request = Request(verb: Verb, path: string, body: Body)

  const RequestPath: string := "/auth/request"
  const ConfirmPath: string := "/auth/confirm"
  const RegisterPath: string := "/auth/register"
  const SignOutPath: string := "/auth/sign-out"
  const MePath: string := "/auth/me"

  /** The profile the `/auth/me` endpoint answers with. */
  datatype Profile = Profile(email: string, fullName: string, disabled: bool)

  /** The two fields of an `Auth` object. */
  datatype Session = Session(email: string, authenticated: bool)

  /** The state of a fresh `Auth`, and the state every successful sign-out returns to. */
  const SignedOut: Session := Session("", false)

  /** What one call does: the new session, the value it returns, the requests it issued. */
  datatype Reply<T> = Reply(session: Session, result: T, sent: seq<Request>)

  /**
   * `requestLogin(email)`: succeeds exactly on status 200, and then remembers
   * the email; on any other status or a network error the session is kept.
   * The authenticated flag is never touched.
   */
  function RequestLoginStep(s: Session, email: string, o: Outcome): (r: Reply<bool>)
    ensures r.sent == [Request(Post, RequestPath, EmailBody(email))]
    ensures r.result <==> o == Status(200)
    ensures r.result ==> r.session == Session(email, s.authenticated)
    ensures !r.result ==> r.session == s
  {
    var sent := [Request(Post, RequestPath, EmailBody(email))];
    match o
    case NetworkError => Reply(s, false, sent)
    case Status(code) =>
      if code == 200 then Reply(s.(email := email), true, sent) else Reply(s, false, sent)
  }

  /**
   * `confirmLogin(code)`: sends the session's own email with the code; the
   * authenticated flag becomes the returned value, which is true exactly on
   * status 200.  The email is never touched.
   */
  function ConfirmLoginStep(s: Session, code: string, o: Outcome): (r: Reply<bool>)
    ensures r.sent == [Request(Post, ConfirmPath, EmailCodeBody(s.email, code))]
    ensures r.result <==> o == Status(200)
    ensures r.session.email == s.email
    ensures r.session.authenticated == r.result
  {
    var sent := [Request(Post, ConfirmPath, EmailCodeBody(s.email, code))];
    match o
    case NetworkError => Reply(s.(authenticated := false), false, sent)
    case Status(status) =>
      if status == 200 then Reply(s.(authenticated := true), true, sent)
      else Reply(s.(authenticated := false), false, sent)
  }

  /**
   * `register(email)`: succeeds exactly on status 201 (200 is a failure), and
   * then remembers the email; otherwise the session is kept.
   */
  function RegisterStep(s: Session, email: string, o: Outcome): (r: Reply<bool>)
    ensures r.sent == [Request(Post, RegisterPath, EmailBody(email))]
    ensures r.result <==> o == Status(201)
    ensures r.result ==> r.session == Session(email, s.authenticated)
    ensures !r.result ==> r.session == s
  {
    var sent := [Request(Post, RegisterPath, EmailBody(email))];
    match o
    case NetworkError => Reply(s, false, sent)
    case Status(code) =>
      if code == 201 then Reply(s.(email := email), true, sent) else Reply(s, false, sent)
  }

  /**
   * `signOut()`: a 200 or a 401 clears the session and reports success; any
   * other status or a network error leaves both fields as they were.
   */
  function SignOutStep(s: Session, o: Outcome): (r: Reply<bool>)
    ensures r.sent == [Request(Get, SignOutPath, NoBody)]
    ensures r.result <==> o == Status(200) || o == Status(401)
    ensures r.result ==> r.session == SignedOut
    ensures !r.result ==> r.session == s
  {
    var sent := [Request(Get, SignOutPath, NoBody)];
    match o
    case NetworkError => Reply(s, false, sent)
    case Status(code) =>
      if code == 200 || code == 401 then Reply(SignedOut, true, sent) else Reply(s, false, sent)
  }

  /**
   * `userDetails()`.  `json` is what `response.json()` yields, `None` when
   * parsing throws.  An unauthenticated session answers `null` without any
   * request.  Otherwise only a 200 with a parsable body yields the profile,
   * a 401 clears the session, and everything else keeps it.
   */
  function UserDetailsStep(s: Session, o: Outcome, json: Option<Profile>): (r: Reply<Option<Profile>>)
    ensures !s.authenticated ==> r == Reply(s, None, [])
    ensures s.authenticated ==> r.sent == [Request(Get, MePath, NoBody)]
    ensures r.result.Some? <==> s.authenticated && o == Status(200) && json.Some?
    ensures r.result.Some? ==> r.result == json
    ensures r.session == if s.authenticated && o == Status(401) then SignedOut else s
  {
    if !s.authenticated then Reply(s, None, [])
    else
      var sent := [Request(Get, MePath, NoBody)];
      match o
      case NetworkError => Reply(s, None, sent)
      case Status(code) =>
        if code == 200 then Reply(s, json, sent)
        else if code == 401 then Reply(SignedOut, None, sent)
        else Reply(s, None, sent)
  }

  /** The code confirmation that follows a successful code request carries the email just requested. */
  lemma ConfirmSendsRequestedEmail(s: Session, email: string, code: string, asked: Outcome, answered: Outcome)
    requires asked == Status(200)
    ensures ConfirmLoginStep(RequestLoginStep(s, email, asked).session, code, answered).sent
         == [Request(Post, ConfirmPath, EmailCodeBody(email, code))]
  {
  }

  /** A session that has been signed out asks for no profile: `userDetails` returns null and sends nothing. */
  lemma SignedOutSessionSendsNothing(s: Session, o: Outcome, again: Outcome, json: Option<Profile>)
    requires SignOutStep(s, o).result
    ensures UserDetailsStep(SignOutStep(s, o).session, again, json) == Reply(SignedOut, None, [])
  {
  }

  /** A 401 from `/auth/me` clears the session, so the next profile request sends nothing and returns null. */
  lemma UnauthorizedProfileSendsNothing(s: Session, again: Outcome, json: Option<Profile>, json2: Option<Profile>)
    requires s.authenticated
    ensures UserDetailsStep(UserDetailsStep(s, Status(401), json).session, again, json2) == Reply(SignedOut, None, [])
  {
  }

  /** Signing out is idempotent: a signed-out session stays signed out whatever `/auth/sign-out` answers. */
  lemma SignOutIdempotent(s: Session, first: Outcome, second: Outcome)
    requires SignOutStep(s, first).result
    ensures SignOutStep(SignOutStep(s, first).session, second).session == SignedOut
  {
  }

  /**
   * The client object.  `requests` records, in order, every request the
   * object's calls issued; the source keeps no such list, it is what an
   * observer of the network sees.
   */
  class Auth {
    var email: string
    var isAuthenticated: bool
    ghost var requests: seq<Request>

    /** The session value of this object. */
    function Current(): (s: Session)
      reads this
    {
      Session(email, isAuthenticated)
    }

    constructor ()
      ensures Current() == SignedOut && requests == []
    {
      email := "";
      isAuthenticated := false;
      requests := [];
    }

    method RequestLogin(e: string, o: Outcome) returns (ok: bool)
      modifies this
      ensures var r := RequestLoginStep(old(Current()), e, o);
              Current() == r.session && ok == r.result && requests == old(requests) + r.sent
    {
      requests := requests + [Request(Post, RequestPath, EmailBody(e))];
      if o.Status? && o.code == 200 {
        email := e;
        ok := true;
      } else {
        ok := false;
      }
    }

    method ConfirmLogin(code: string, o: Outcome) returns (ok: bool)
      modifies this
      ensures var r := ConfirmLoginStep(old(Current()), code, o);
              Current() == r.session && ok == r.result && requests == old(requests) + r.sent
    {
      requests := requests + [Request(Post, ConfirmPath, EmailCodeBody(email, code))];
      if o.Status? && o.code == 200 {
        isAuthenticated := true;
        ok := true;
      } else {
        isAuthenticated := false;
        ok := false;
      }
    }

    method Register(e: string, o: Outcome) returns (ok: bool)
      modifies this
      ensures var r := RegisterStep(old(Current()), e, o);
              Current() == r.session && ok == r.result && requests == old(requests) + r.sent
    {
      requests := requests + [Request(Post, RegisterPath, EmailBody(e))];
      if o.Status? && o.code == 201 {
        email := e;
        ok := true;
      } else {
        ok := false;
      }
    }

    method SignOut(o: Outcome) returns (ok: bool)
      modifies this
      ensures var r := SignOutStep(old(Current()), o);
              Current() == r.session && ok == r.result && requests == old(requests) + r.sent
    {
      requests := requests + [Request(Get, SignOutPath, NoBody)];
      if o.Status? && (o.code == 200 || o.code == 401) {
        email := "";
        isAuthenticated := false;
        ok := true;
      } else {
        ok := false;
      }
    }

    method UserDetails(o: Outcome, json: Option<Profile>) returns (profile: Option<Profile>)
      modifies this
      ensures var r := UserDetailsStep(old(Current()), o, json);
              Current() == r.session && profile == r.result && requests == old(requests) + r.sent
    {
      if !isAuthenticated {
        return None;
      }
      requests := requests + [Request(Get, MePath, NoBody)];
      if o.Status? && o.code == 200 {
        profile := json;
      } else if o.Status? && o.code == 401 {
        email := "";
        isAuthenticated := false;
        profile := None;
      } else {
        profile := None;
      }
    }
  }
}
