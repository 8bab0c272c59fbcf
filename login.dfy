/** The login form of src/pages/Login.tsx: `handleLogin` posts the credentials,
    stores the returned token in the "token" cookie, and navigates to the
    instructors page; a rejected attempt raises a toast instead. The await in
    the middle splits the handler into Submit (before the reply) and Complete
    (after it). */
module Login {
  import opened Js
  import opened Http
  import opened Auth

  const LoginPath: string := "/api/users/admin/login"

  /** Where a successful login navigates. */
  const AfterLoginPath: string := "/admin/instructors"

  /** The JSON body `{ email: username, password }`. */
  datatype Credentials = Credentials(email: string, password: string)

  /** The request `handleLogin` sends. */
  function LoginRequest(backend: string, username: string, password: string): (r: Request<Credentials>)
    ensures r.verb == POST && r.url == backend + "/api/users/admin/login"
    ensures r.body == Some(Credentials(username, password)) && r.headers == map[]
  {
    Request(POST, backend + LoginPath, map[], Some(Credentials(username, password)))
  }

  /** What js-cookie stores for `res.data.token`: the token, or "undefined"
      when the reply carries none. */
  function StoredToken(token: Option<string>): (r: string)
    ensures token.Some? ==> r == token.value
    ensures token.None? ==> r == "undefined"
  {
    Interpolate(token)
  }

  /** The description of the failure toast: the server's `message` when it is a
      non-empty string, otherwise "Invalid". */
  function FailureMessage(message: Option<string>): (r: string)
    ensures r != ""
    ensures r == "Invalid" || message == Some(r)
    ensures (exists m :: message == Some(m) && m != "") ==> message == Some(r)
  {
    Or(message, "Invalid")
  }

  const SuccessToast: Toast := InfoToast("Login successful", "Welcome to admin dashboard")

  function FailureToast(message: Option<string>): Toast
  {
    ErrorToast("Login failed", FailureMessage(message))
  }

  /** A successful login unlocks the store exactly when the stored string is
      non-empty; a reply without a token still unlocks it, with "undefined". */
  lemma LoginUnlocks(j: Jar, token: Option<string>, now: nat)
    ensures IsAuthenticated(SetSession(j, StoredToken(token)), now) <==> token != Some("")
  {
  }

  /** The login cookie carries no expiry: unlike `setAuthToken`, it is still
      returned after seven days. */
  lemma LoginCookieOutlivesSetAuthToken(j: Jar, t: string, now: nat)
    ensures Get(SetSession(j, t), now + LifetimeDays) == Some(t)
    ensures Get(Set(j, t, now), now + LifetimeDays) == None
  {
  }

  class LoginPage {
    var username: string
    var password: string
    var loading: bool
    const store: TokenStore

    constructor (store: TokenStore)
      ensures this.store == store
      ensures username == "" && password == "" && !loading
    {
      this.store := store;
      username, password, loading := "", "", false;
    }

    /** The input fields' onChange handlers. */
    method SetCredentials(u: string, p: string)
      modifies this`username, this`password
      ensures username == u && password == p
    {
      username, password := u, p;
    }

    /** `setLoading(true)` and the post: the part of `handleLogin` before the await. */
    method Submit(backend: string) returns (req: Request<Credentials>)
      modifies this`loading
      ensures loading
      ensures req == LoginRequest(backend, username, password)
    {
      loading := true;
      req := LoginRequest(backend, username, password);
    }

    /** The part of `handleLogin` after the await. On success the cookie holds
        the returned token with no expiry and the page navigates; on failure the
        store is untouched and nothing navigates. Either way `loading` ends false. */
    method Complete(reply: Outcome<Option<string>>) returns (navigateTo: Option<string>, note: Toast)
      modifies this`loading, store
      ensures !loading
      ensures reply.Fulfilled? ==>
        store.State() == SetSession(old(store.State()), StoredToken(reply.data))
        && navigateTo == Some(AfterLoginPath) && note == SuccessToast
      ensures reply.Rejected? ==>
        store.State() == old(store.State())
        && navigateTo == None && note == FailureToast(reply.message)
    {
      match reply {
        case Fulfilled(token) =>
          store.SetWithoutExpiry(StoredToken(token));
          note := SuccessToast;
          navigateTo := Some(AfterLoginPath);
        case Rejected(message) =>
          note := FailureToast(message);
          navigateTo := None;
      }
      loading := false;
    }

    /** The whole of `handleLogin`: the request it sends, the cookie it writes,
        where it navigates. */
    method HandleLogin(backend: string, reply: Outcome<Option<string>>)
      returns (req: Request<Credentials>, navigateTo: Option<string>, note: Toast)
      modifies this`loading, store
      ensures !loading
      ensures req == LoginRequest(backend, username, password)
      ensures reply.Fulfilled? ==>
        store.State() == SetSession(old(store.State()), StoredToken(reply.data))
        && navigateTo == Some(AfterLoginPath)
      ensures reply.Rejected? ==> store.State() == old(store.State()) && navigateTo == None
    {
      req := Submit(backend);
      navigateTo, note := Complete(reply);
    }
  }
}
