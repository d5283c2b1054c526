/**
 * The session store (`AuthProvider`): three state cells, `user`,
 * `isAuthenticated` and `isLoading`, shared by the whole application and
 * changed only by `checkAuthStatus`, `login`, `signup`, `logout` and
 * `refreshAuth`. Each operation takes the outcome of its HTTP request as a
 * parameter and runs its state updates in source order.
 */
module AuthContext {
  import opened Wrappers
  import opened Text
  import opened Http

  /** The user record the backend returns from `/auth/me`, `/auth/login` and `/auth/signup`. */
  datatype User = User(id: string, email: string, username: string)

  /** What `login` and `signup` resolve to: `{success: true, user}` or
      `{success: false, error}`. */
  datatype AuthResult = Success(user: User) | Failure(error: string)

  const LocalBackend: string := "http://localhost:5000"
  const ProductionBackend: string := "https://test-gen-backend.onrender.com"

  /** The hostnames `getApiUrl` treats as a local machine or local network. */
  predicate IsLocalHost(hostname: string)
  {
    hostname == "localhost" || hostname == "127.0.0.1"
    || StartsWith(hostname, "192.168.") || StartsWith(hostname, "10.") || StartsWith(hostname, "172.")
  }

  /** `getApiUrl`: the backend address chosen from the page's hostname. */
  function ApiUrl(hostname: string): (url: string)
    ensures url == LocalBackend || url == ProductionBackend
    ensures url == LocalBackend <==> IsLocalHost(hostname)
  {
    if IsLocalHost(hostname) then LocalBackend else ProductionBackend
  }

  /** Prefixes select the local backend whatever follows them; every other
      name, a public domain included, selects the production backend. */
  lemma ApiUrlExamples(rest: string)
    ensures ApiUrl("192.168." + rest) == LocalBackend
    ensures ApiUrl("10." + rest) == LocalBackend
    ensures ApiUrl("172." + rest) == LocalBackend
    ensures ApiUrl("localhost") == LocalBackend
    ensures ApiUrl("127.0.0.1") == LocalBackend
    ensures ApiUrl("test-gen.example.com") == ProductionBackend
    ensures ApiUrl("localhost.example.com") == ProductionBackend
  {
    assert StartsWith("192.168." + rest, "192.168.");
    assert StartsWith("10." + rest, "10.");
    assert StartsWith("172." + rest, "172.");
    assert "test-gen.example.com"[0] == 't';
    assert "localhost.example.com"[0] == 'l';
  }

  /** The fallback error text of `login` and `signup` for a non-2xx response
      whose body has no usable `message`. */
  function HttpStatusError(status: nat): (m: string)
    ensures StatusErrorPrefix <= m
    ensures forall i :: |StatusErrorPrefix| <= i < |m| ==> IsDigit(m[i])
    ensures DigitsValue(m[|StatusErrorPrefix|..]) == status
  {
    NatToStringRoundTrip(status);
    var m := StatusErrorPrefix + NatToString(status);
    assert m[|StatusErrorPrefix|..] == NatToString(status);
    m
  }

  /** The fixed start of the fallback error text. */
  const StatusErrorPrefix: string := "HTTP error! status: "

  /** The status code can be read back from the fallback error text. */
  lemma {:induction false} HttpStatusErrorInjective(m: nat, n: nat)
    requires HttpStatusError(m) == HttpStatusError(n)
    ensures m == n
  {
    var p := StatusErrorPrefix;
    assert HttpStatusError(m)[|p|..] == NatToString(m);
    assert HttpStatusError(n)[|p|..] == NatToString(n);
    NatToStringInjective(m, n);
  }

  /** What `login` and `signup` return for a response outcome. They never
      throw: every failure, a non-2xx status, an unreadable error body or a
      network failure, becomes `Failure` with the message the `catch` block
      saw. */
  function AuthResultOf(r: Response<User>): (result: AuthResult)
    ensures result.Success? <==> r.Ok? && r.body.Parsed?
    ensures result.Success? ==> result.user == r.body.value
    ensures r.Ok? && r.body.Malformed? ==> result == Failure(r.body.reason)
    ensures r.NotOk? && r.error.Parsed? && r.error.value.Some? && r.error.value.value != "" ==>
      result == Failure(r.error.value.value)
    ensures r.NotOk? && r.error.Parsed? && (r.error.value.None? || r.error.value.value == "") ==>
      result == Failure(HttpStatusError(r.status))
    ensures r.NotOk? && r.error.Malformed? ==> result == Failure(r.error.reason)
    ensures r.NetworkFailure? ==> result == Failure(r.reason)
  {
    if r.Succeeded() then Success(r.body.value)
    else Failure(CaughtMessage(r, if r.NotOk? then HttpStatusError(r.status) else ""))
  }

  /** The state cells of `AuthProvider`. */
  class AuthProvider {
    var user: Option<User>
    var isAuthenticated: bool
    var isLoading: bool
    /** `API_BASE_URL`, computed once from the hostname. */
    const apiBaseUrl: string

    /** The session invariant: the store is authenticated exactly when it holds a user. */
    predicate Valid()
      reads this
    {
      isAuthenticated <==> user.Some?
    }

    /** A fresh provider: no user, not authenticated, loading. The mount
        effect then runs `CheckAuthStatus`. */
    constructor (hostname: string)
      ensures Valid()
      ensures user == None && !isAuthenticated && isLoading
      ensures apiBaseUrl == ApiUrl(hostname)
    {
      user := None;
      isLoading := true;
      isAuthenticated := false;
      apiBaseUrl := ApiUrl(hostname);
    }

    /** `checkAuthStatus`: a 2xx `/auth/me` with a readable body signs the
        user in; any other status, an unreadable body or a network failure
        signs out. The `finally` step always ends loading. */
    method CheckAuthStatus(r: Response<User>)
      modifies this
      ensures Valid()
      ensures r.Succeeded() ==> user == Some(r.body.value) && isAuthenticated
      ensures !r.Succeeded() ==> user == None && !isAuthenticated
      ensures !isLoading
    {
      if r.Succeeded() {
        user := Some(r.body.value);
        isAuthenticated := true;
      } else {
        user := None;
        isAuthenticated := false;
      }
      isLoading := false;
    }

    /** The shared body of `login` and `signup`: on success store the user and
        authenticate; on failure leave the session exactly as it was. Loading
        is never touched. */
    method Authenticate(r: Response<User>) returns (result: AuthResult)
      requires Valid()
      modifies this
      ensures Valid()
      ensures result == AuthResultOf(r)
      ensures result.Success? ==> user == Some(result.user) && isAuthenticated
      ensures result.Failure? ==> user == old(user) && isAuthenticated == old(isAuthenticated)
      ensures isLoading == old(isLoading)
    {
      result := AuthResultOf(r);
      if result.Success? {
        user := Some(result.user);
        isAuthenticated := true;
      }
    }

    /** `login(email, password)`: POST `/auth/login`. The credentials go into
        the request; the store's change depends only on the outcome `r`. */
    method Login(r: Response<User>) returns (result: AuthResult)
      requires Valid()
      modifies this
      ensures Valid()
      ensures result == AuthResultOf(r)
      ensures result.Success? ==> user == Some(result.user) && isAuthenticated
      ensures result.Failure? ==> user == old(user) && isAuthenticated == old(isAuthenticated)
      ensures isLoading == old(isLoading)
    {
      result := Authenticate(r);
    }

    /** `signup(email, username, password)`: POST `/auth/signup`, with the
        same handling as `login`. */
    method Signup(r: Response<User>) returns (result: AuthResult)
      requires Valid()
      modifies this
      ensures Valid()
      ensures result == AuthResultOf(r)
      ensures result.Success? ==> user == Some(result.user) && isAuthenticated
      ensures result.Failure? ==> user == old(user) && isAuthenticated == old(isAuthenticated)
      ensures isLoading == old(isLoading)
    {
      result := Authenticate(r);
    }

    /** `logout`: POST `/auth/logout` is best effort; whatever it returns,
        the `finally` step signs out. Loading is never touched. */
    method Logout(r: Response<()>)
      modifies this
      ensures Valid()
      ensures user == None && !isAuthenticated
      ensures isLoading == old(isLoading)
    {
      user := None;
      isAuthenticated := false;
    }

    /** `refreshAuth` up to its `await`: back to loading, with the session
        kept, so the guard shows its placeholder while `/auth/me` is in flight. */
    method BeginRefresh()
      modifies this
      ensures isLoading
      ensures user == old(user) && isAuthenticated == old(isAuthenticated)
      ensures old(Valid()) ==> Valid()
    {
      isLoading := true;
    }

    /** `refreshAuth`: back to loading, then the same check as on mount. */
    method RefreshAuth(r: Response<User>)
      modifies this
      ensures Valid()
      ensures r.Succeeded() ==> user == Some(r.body.value) && isAuthenticated
      ensures !r.Succeeded() ==> user == None && !isAuthenticated
      ensures !isLoading
    {
      BeginRefresh();
      CheckAuthStatus(r);
    }
  }

  /** A session driven through every operation keeps the invariant, and a
      failed login after a sign-in keeps the signed-in user. */
  method SessionScenario(hostname: string, u: User, bad: Response<User>, any: Response<()>)
    requires !bad.Succeeded()
  {
    var store := new AuthProvider(hostname);
    assert store.isLoading && store.user == None;
    store.CheckAuthStatus(Ok(Parsed(u)));
    assert store.user == Some(u) && !store.isLoading;
    var result := store.Login(bad);
    assert result.Failure? && store.user == Some(u) && store.isAuthenticated;
    store.Logout(any);
    assert store.user == None && !store.isAuthenticated && !store.isLoading;
    result := store.Signup(Ok(Parsed(u)));
    assert result == Success(u) && store.Valid();
    store.BeginRefresh();
    assert store.isLoading && store.user == Some(u) && store.Valid();
    store.CheckAuthStatus(bad);
    assert store.user == None && !store.isLoading;
    store.RefreshAuth(Ok(Parsed(u)));
    assert store.user == Some(u) && !store.isLoading;
  }
}
