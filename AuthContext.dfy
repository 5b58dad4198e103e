/** The session lifecycle of `AuthProvider`: `fetchUser`, `login` and
    `logout`. The pure functions below give the effect of each operation on
    a snapshot of everything the provider reads or writes; the class
    `AuthProvider` performs the operations step by step on the browser
    objects and is proved to have exactly those effects. */
module AuthContext {
  import opened Types
  import opened Browser

  const AccessKey: string := "accessToken"
  const RefreshKey: string := "refreshToken"
  const LoginPath: string := "/login"
  const DashboardPath: string := "/dashboard"
  const TokenPath: string := "/token/"
  const MePath: string := "/users/me/"

  /** The body of a successful POST /token/. */
  datatype TokenPair = TokenPair(access: string, refresh: string)

  /** The provider's state together with the storage, the client and the router. */
  datatype Session = Session(
    storage: map<string, string>,
    authorization: Option<string>,
    sent: seq<ApiCall>,
    user: Option<User>,
    isAuthenticated: bool,
    visited: seq<string>)

  /** What `if (token)` lets through: a missing key (null) and the empty
      string are both falsy. */
  function StoredAccessToken(storage: map<string, string>): (t: Option<string>)
    ensures t.Some? <==> AccessKey in storage && storage[AccessKey] != ""
    ensures t.Some? ==> t.value == storage[AccessKey]
  {
    if AccessKey in storage && storage[AccessKey] != "" then Some(storage[AccessKey]) else None
  }

  function Bearer(token: string): string {
    "Bearer " + token
  }

  /** The provider's invariant: `isAuthenticated` agrees with `user`, and an
      authenticated session's default header carries the stored access token. */
  predicate Consistent(s: Session) {
    (s.isAuthenticated <==> s.user.Some?) &&
    (s.isAuthenticated ==>
       StoredAccessToken(s.storage).Some? &&
       s.authorization == Some(Bearer(StoredAccessToken(s.storage).value)))
  }

  /** The state right after the provider is created, before its mount effect. */
  function Initial(persisted: map<string, string>): (r: Session)
    ensures Consistent(r)
    ensures r.user == None && !r.isAuthenticated && r.storage == persisted
  {
    Session(persisted, None, [], None, false, [])
  }

  /** `logout`: both tokens and the default header are gone, the session is
      cleared and "/login" is pushed; nothing else changes. */
  function LoggedOut(s: Session): (r: Session)
    ensures AccessKey !in r.storage && RefreshKey !in r.storage
    ensures forall k :: k in r.storage <==> (k in s.storage && k != AccessKey && k != RefreshKey)
    ensures forall k :: k in r.storage ==> r.storage[k] == s.storage[k]
    ensures r.authorization == None && r.user == None && !r.isAuthenticated
    ensures r.visited == s.visited + [LoginPath] && r.sent == s.sent
    ensures Consistent(r)
  {
    s.(storage := s.storage - {AccessKey, RefreshKey},
       authorization := None,
       user := None,
       isAuthenticated := false,
       visited := s.visited + [LoginPath])
  }

  /** `fetchUser`, given the outcome `me` of GET /users/me/ (unused when no
      request is made). */
  function FetchedUser(s: Session, me: Response<User>): (r: Session)
    // no token: the session is cleared and nothing else is touched
    ensures StoredAccessToken(s.storage).None? ==>
              r.storage == s.storage && r.authorization == s.authorization &&
              r.sent == s.sent && r.visited == s.visited &&
              r.user == None && !r.isAuthenticated
    // a token: exactly one GET /users/me/, already carrying "Bearer <token>"
    ensures StoredAccessToken(s.storage).Some? ==>
              r.sent == s.sent + [ApiCall(Get, MePath, NoBody, Some(Bearer(StoredAccessToken(s.storage).value)))]
    ensures StoredAccessToken(s.storage).Some? && me.Success? ==>
              r.storage == s.storage && r.visited == s.visited &&
              r.authorization == Some(Bearer(StoredAccessToken(s.storage).value)) &&
              r.user == Some(me.data) && r.isAuthenticated
    // a rejected fetch has the full effect of logout
    ensures StoredAccessToken(s.storage).Some? && me.Failure? ==>
              r == LoggedOut(s).(sent := r.sent)
    ensures Consistent(r)
  {
    match StoredAccessToken(s.storage)
    case None => s.(isAuthenticated := false, user := None)
    case Some(token) =>
      var withHeader := s.(authorization := Some(Bearer(token)));
      var requested := withHeader.(sent := withHeader.sent + [ApiCall(Get, MePath, NoBody, withHeader.authorization)]);
      match me
      case Success(u) => requested.(user := Some(u), isAuthenticated := true)
      case Failure => LoggedOut(requested)
  }

  /** The state after the two `setItem` calls of a successful login. */
  function TokensStored(s: Session, pair: TokenPair): Session {
    s.(storage := s.storage[AccessKey := pair.access][RefreshKey := pair.refresh])
  }

  /** `login(email, password)`, given the outcome of POST /token/ and of the
      GET /users/me/ that follows it. */
  function LoggedIn(s: Session, email: string, password: string,
                    tokens: Response<TokenPair>, me: Response<User>): (r: Session)
    // the credentials always go out first, under whatever header is current
    ensures |r.sent| > |s.sent| &&
            r.sent[..|s.sent| + 1] == s.sent + [ApiCall(Post, TokenPath, TokenRequest(email, password), s.authorization)]
    // a rejected token request sends nothing more and writes nothing
    ensures tokens.Failure? ==>
              r.sent == s.sent + [ApiCall(Post, TokenPath, TokenRequest(email, password), s.authorization)]
    ensures tokens.Failure? ==>
              r.storage == s.storage && r.authorization == s.authorization &&
              r.user == s.user && r.isAuthenticated == s.isAuthenticated && r.visited == s.visited
    // otherwise fetchUser runs on the new tokens, and "/dashboard" is pushed whatever it did
    ensures tokens.Success? ==> |r.visited| > 0 && r.visited[|r.visited| - 1] == DashboardPath
    // with a usable access token, the only other request is GET /users/me/ under the new header
    ensures tokens.Success? && tokens.data.access != "" ==>
              r.sent == s.sent + [ApiCall(Post, TokenPath, TokenRequest(email, password), s.authorization),
                                  ApiCall(Get, MePath, NoBody, Some(Bearer(tokens.data.access)))]
    // with an empty access token fetchUser's no-token branch leaves the header alone
    ensures tokens.Success? && tokens.data.access == "" ==>
              r.sent == s.sent + [ApiCall(Post, TokenPath, TokenRequest(email, password), s.authorization)] &&
              r.authorization == s.authorization &&
              r.storage == s.storage[AccessKey := ""][RefreshKey := tokens.data.refresh] &&
              r.user == None && !r.isAuthenticated &&
              r.visited == s.visited + [DashboardPath]
    ensures tokens.Success? && tokens.data.access != "" && me.Success? ==>
              r.storage == s.storage[AccessKey := tokens.data.access][RefreshKey := tokens.data.refresh] &&
              r.authorization == Some(Bearer(tokens.data.access)) &&
              r.user == Some(me.data) && r.isAuthenticated &&
              r.visited == s.visited + [DashboardPath]
    ensures tokens.Success? && tokens.data.access != "" && me.Failure? ==>
              AccessKey !in r.storage && RefreshKey !in r.storage &&
              (forall k :: k != AccessKey && k != RefreshKey ==>
                 (k in r.storage <==> k in s.storage) && (k in r.storage ==> r.storage[k] == s.storage[k])) &&
              r.authorization == None && r.user == None && !r.isAuthenticated &&
              r.visited == s.visited + [LoginPath, DashboardPath]
    ensures tokens.Success? ==> Consistent(r)
    ensures Consistent(s) ==> Consistent(r)
  {
    var posted := s.(sent := s.sent + [ApiCall(Post, TokenPath, TokenRequest(email, password), s.authorization)]);
    match tokens
    case Failure => posted
    case Success(pair) =>
      var fetched := FetchedUser(TokensStored(posted, pair), me);
      fetched.(visited := fetched.visited + [DashboardPath])
  }

  /** Logout is idempotent: a second call changes nothing but pushes "/login" again. */
  lemma LogoutIdempotent(s: Session)
    ensures LoggedOut(LoggedOut(s)) == LoggedOut(s).(visited := LoggedOut(s).visited + [LoginPath])
  {
  }

  /** Logout forgets the prior session: two states that differ only in their
      tokens, header and user end up equal. */
  lemma LogoutForgetsSession(s: Session, t: Session)
    requires s.sent == t.sent && s.visited == t.visited
    requires s.storage - {AccessKey, RefreshKey} == t.storage - {AccessKey, RefreshKey}
    ensures LoggedOut(s) == LoggedOut(t)
  {
  }

  /** The order of a login whose user fetch is rejected: fetchUser's catch
      runs logout, which pushes "/login", and login still pushes
      "/dashboard" afterwards, since the rejection never reaches it. */
  lemma LoginAfterRejectedFetch(s: Session, email: string, password: string, pair: TokenPair)
    requires pair.access != ""
    ensures var r := LoggedIn(s, email, password, Success(pair), Failure);
            r.visited == s.visited + [LoginPath, DashboardPath] &&
            r.sent == s.sent + [ApiCall(Post, TokenPath, TokenRequest(email, password), s.authorization),
                                ApiCall(Get, MePath, NoBody, Some(Bearer(pair.access)))] &&
            !r.isAuthenticated
  {
  }

  /** An empty access token is stored but is falsy for fetchUser: no user
      request is made, the session is cleared, the previous default header
      (possibly a stale "Bearer ...") stays, and "/dashboard" is pushed. */
  lemma LoginWithEmptyAccessToken(s: Session, email: string, password: string, refresh: string, me: Response<User>)
    ensures var r := LoggedIn(s, email, password, Success(TokenPair("", refresh)), me);
            r.sent == s.sent + [ApiCall(Post, TokenPath, TokenRequest(email, password), s.authorization)] &&
            r.storage == s.storage[AccessKey := ""][RefreshKey := refresh] &&
            r.authorization == s.authorization && r.user == None &&
            !r.isAuthenticated && r.visited == s.visited + [DashboardPath]
  {
  }

  /** The operations a client of the provider can trigger. */
  datatype AuthEvent =
    | Mount(me: Response<User>)  // the mount effect, which runs fetchUser
    | LoginCall(email: string, password: string, tokens: Response<TokenPair>, loginMe: Response<User>)
    | LogoutCall

  function Step(s: Session, e: AuthEvent): Session {
    match e
    case Mount(me) => FetchedUser(s, me)
    case LoginCall(email, password, tokens, me) => LoggedIn(s, email, password, tokens, me)
    case LogoutCall => LoggedOut(s)
  }

  function Run(s: Session, es: seq<AuthEvent>): Session
    decreases |es|
  {
    if es == [] then s else Run(Step(s, es[0]), es[1..])
  }

  /** The invariant holds initially and after any sequence of operations. */
  lemma {:induction false} RunStaysConsistent(s: Session, es: seq<AuthEvent>)
    requires Consistent(s)
    ensures Consistent(Run(s, es))
    decreases |es|
  {
    if es != [] {
      RunStaysConsistent(Step(s, es[0]), es[1..]);
    }
  }

  lemma InitialRunsConsistent(persisted: map<string, string>, es: seq<AuthEvent>)
    ensures Consistent(Run(Initial(persisted), es))
  {
    RunStaysConsistent(Initial(persisted), es);
  }

  predicate IsRoute(p: string) {
    p == LoginPath || p == DashboardPath
  }

  /** `r` extends `s`: requests and navigation only appended to, and every
      appended path is "/login" or "/dashboard". */
  predicate Grows(s: Session, r: Session) {
    |s.sent| <= |r.sent| && r.sent[..|s.sent|] == s.sent &&
    |s.visited| <= |r.visited| && r.visited[..|s.visited|] == s.visited &&
    forall i :: |s.visited| <= i < |r.visited| ==> IsRoute(r.visited[i])
  }

  lemma GrowsTransitive(a: Session, b: Session, c: Session)
    requires Grows(a, b) && Grows(b, c)
    ensures Grows(a, c)
  {
  }

  lemma StepGrows(s: Session, e: AuthEvent)
    ensures Grows(s, Step(s, e))
  {
  }

  /** Requests and navigation are only ever appended to, and the provider
      navigates only to "/login" and "/dashboard". */
  lemma {:induction false} RunAppendsOnly(s: Session, es: seq<AuthEvent>)
    ensures Grows(s, Run(s, es))
    decreases |es|
  {
    if es == [] {
      assert s.sent[..|s.sent|] == s.sent && s.visited[..|s.visited|] == s.visited;
    } else {
      var t := Step(s, es[0]);
      StepGrows(s, es[0]);
      RunAppendsOnly(t, es[1..]);
      GrowsTransitive(s, t, Run(s, es));
    }
  }

  /** One operation appends at most "/login" then "/dashboard" to the navigation log. */
  lemma StepVisits(s: Session, e: AuthEvent)
    ensures var t := Step(s, e);
            t.visited == s.visited ||
            t.visited == s.visited + [LoginPath] ||
            t.visited == s.visited + [DashboardPath] ||
            t.visited == s.visited + [LoginPath, DashboardPath]
  {
  }

  /** `AuthProvider`: its own two state variables plus the browser objects it
      writes through. */
  class AuthProvider {
    const store: TokenStore
    const client: ApiClient
    const router: Router
    var user: Option<User>
    var isAuthenticated: bool

    function State(): Session
      reads this, store, client, router
    {
      Session(store.items, client.authorization, client.sent, user, isAuthenticated, router.visited)
    }

    /** `useState(false)` and `useState(null)` over the given browser objects. */
    constructor (store: TokenStore, client: ApiClient, router: Router)
      ensures this.store == store && this.client == client && this.router == router
      ensures user == None && !isAuthenticated
    {
      this.store := store;
      this.client := client;
      this.router := router;
      user := None;
      isAuthenticated := false;
    }

    method Logout()
      modifies this, store, client, router
      ensures State() == LoggedOut(old(State()))
    {
      store.RemoveItem(AccessKey);
      store.RemoveItem(RefreshKey);
      client.DeleteAuthorization();
      user := None;
      isAuthenticated := false;
      router.Push(LoginPath);
      assert store.items == old(store.items) - {AccessKey, RefreshKey};
    }

    /** `fetchUser`, with `me` the outcome of GET /users/me/; a rejection is
        caught here and never reaches the caller. */
    method FetchUser(me: Response<User>)
      modifies this, store, client, router
      ensures State() == FetchedUser(old(State()), me)
    {
      var token := store.GetItem(AccessKey);
      if token.Some? && token.value != "" {
        client.SetAuthorization("Bearer " + token.value);
        client.Send(Get, MePath, NoBody);
        match me
        case Success(u) =>
          user := Some(u);
          isAuthenticated := true;
        case Failure =>
          Logout();
      } else {
        isAuthenticated := false;
        user := None;
      }
    }

    /** `login`; `resolved` is false exactly when the returned promise rejects. */
    method Login(email: string, password: string, tokens: Response<TokenPair>, me: Response<User>)
      returns (resolved: bool)
      modifies this, store, client, router
      ensures resolved == tokens.Success?
      ensures State() == LoggedIn(old(State()), email, password, tokens, me)
    {
      client.Send(Post, TokenPath, TokenRequest(email, password));
      if tokens.Failure? {
        return false;
      }
      var pair := tokens.data;
      store.SetItem(AccessKey, pair.access);
      store.SetItem(RefreshKey, pair.refresh);
      FetchUser(me);
      router.Push(DashboardPath);
      resolved := true;
    }
  }
}
