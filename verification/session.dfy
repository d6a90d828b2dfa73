/** The credential lifecycle: what `adminLogin` writes to `localStorage`, what
    `logout` removes from both storage areas, and the browser state both act on. */
module Session {
  import opened WebStorage
  import opened TokenLookup

  const RefreshTokenKey := "refreshToken"
  const AuthenticatedKey := "adminAuthenticated"
  const UsernameKey := "adminUsername"

  /** The route `logout` sends the browser to. */
  const LoginPath := "/login"

  /** The five keys of the credential bundle, in the order `logout` removes them. */
  const AuthKeys: seq<string> := [AccessTokenKey, AuthTokenKey, RefreshTokenKey, AuthenticatedKey, UsernameKey]

  /** `localStorage`, `sessionStorage` and the current location's path. */
  datatype BrowserState = BrowserState(local: Store, session: Store, location: string)

  /** The session is AUTHENTICATED exactly when the lookup finds a token. */
  predicate Authenticated(st: BrowserState) {
    AdminToken(st.local, st.session) != ""
  }

  /** The fields of the login response body the session code reads;
      None stands for a field that is absent, `null` or `undefined`. */
  datatype LoginData = LoginData(access: Option<string>, refresh: Option<string>)

  /** `response.data?.access` is truthy; `data` is None when the body itself is
      `null` or `undefined`. */
  predicate LoginSucceeded(data: Option<LoginData>) {
    data.Some? && Truthy(data.value.access)
  }

  /** The entries a successful login stores: the access token under both of
      its names, the refresh token only when it is truthy, the flag and the
      username. */
  function LoginEntries(username: string, access: string, refresh: Option<string>): Store {
    map[AccessTokenKey := access, AuthTokenKey := access, AuthenticatedKey := "true", UsernameKey := username]
    + (if Truthy(refresh) then map[RefreshTokenKey := refresh.value] else map[])
  }

  /** `localStorage` after `adminLogin` has seen the response body `data`. */
  function AfterLogin(local: Store, username: string, data: Option<LoginData>): (r: Store)
    ensures !LoginSucceeded(data) ==> r == local
    ensures LoginSucceeded(data) ==>
              && GetItem(r, AccessTokenKey) == data.value.access
              && GetItem(r, AuthTokenKey) == data.value.access
              && GetItem(r, AuthenticatedKey) == Some("true")
              && GetItem(r, UsernameKey) == Some(username)
    ensures GetItem(r, RefreshTokenKey) ==
              if LoginSucceeded(data) && Truthy(data.value.refresh) then data.value.refresh
              else GetItem(local, RefreshTokenKey)
    ensures forall k :: k !in AuthKeys ==> GetItem(r, k) == GetItem(local, k)
  {
    if LoginSucceeded(data) then local + LoginEntries(username, data.value.access.value, data.value.refresh)
    else local
  }

  /** A storage area with the five credential keys removed. */
  function Cleared(s: Store): (r: Store)
    ensures forall k :: GetItem(r, k) == if k in AuthKeys then None else GetItem(s, k)
  {
    map k | k in s && k !in AuthKeys :: s[k]
  }

  /** The browser state after `logout`. */
  function AfterLogout(st: BrowserState): (r: BrowserState)
    ensures r.location == LoginPath
    ensures forall k :: k !in AuthKeys ==>
              GetItem(r.local, k) == GetItem(st.local, k) && GetItem(r.session, k) == GetItem(st.session, k)
    ensures forall k :: k in AuthKeys ==> k !in r.local && k !in r.session
  {
    BrowserState(Cleared(st.local), Cleared(st.session), LoginPath)
  }

  /** Two stores that agree on every lookup are the same store. */
  lemma StoreExt(a: Store, b: Store)
    requires forall k :: GetItem(a, k) == GetItem(b, k)
    ensures a == b
  {
    assert forall k :: k in a <==> GetItem(a, k).Some?;
    assert a.Keys == b.Keys;
  }

  /** `removeItem(key)` affects the lookup of `key` only. */
  lemma RemoveItem(s: Store, key: string)
    ensures forall k :: GetItem(s - {key}, k) == if k == key then None else GetItem(s, k)
  {
  }

  /** The five `setItem` calls of a successful login, one after another,
      amount to merging `LoginEntries` into the store. */
  lemma SetItemsMerge(s: Store, username: string, access: string, refresh: Option<string>)
    ensures var s1 := s[AccessTokenKey := access][AuthTokenKey := access];
            var s2 := if Truthy(refresh) then s1[RefreshTokenKey := refresh.value] else s1;
            s2[AuthenticatedKey := "true"][UsernameKey := username] == s + LoginEntries(username, access, refresh)
  {
    var s1 := s[AccessTokenKey := access][AuthTokenKey := access];
    var s2 := if Truthy(refresh) then s1[RefreshTokenKey := refresh.value] else s1;
    var s3 := s2[AuthenticatedKey := "true"][UsernameKey := username];
    forall k ensures GetItem(s3, k) == GetItem(s + LoginEntries(username, access, refresh), k) {
    }
    StoreExt(s3, s + LoginEntries(username, access, refresh));
  }

  /** A successful login makes its access token the one every later request
      uses, even when stale tokens remain in `sessionStorage`. */
  lemma LoginTokenWins(local: Store, session: Store, username: string, data: Option<LoginData>)
    requires LoginSucceeded(data)
    ensures AdminToken(AfterLogin(local, username, data), session) == data.value.access.value
    ensures Authenticated(BrowserState(AfterLogin(local, username, data), session, ""))
  {
  }

  /** After `logout` no token is found and the browser is on the login route. */
  lemma LogoutSignsOut(st: BrowserState)
    ensures AdminToken(AfterLogout(st).local, AfterLogout(st).session) == ""
    ensures !Authenticated(AfterLogout(st)) && AfterLogout(st).location == LoginPath
  {
  }

  /** `logout` twice leaves the same state as `logout` once. */
  lemma LogoutIdempotent(st: BrowserState)
    ensures AfterLogout(AfterLogout(st)) == AfterLogout(st)
  {
    var once := AfterLogout(st);
    StoreExt(Cleared(once.local), once.local);
    StoreExt(Cleared(once.session), once.session);
  }

  /** Login writes only credential keys: a logout afterwards leaves exactly
      what a logout before it would have left. */
  lemma LogoutUndoesLogin(local: Store, username: string, data: Option<LoginData>)
    ensures Cleared(AfterLogin(local, username, data)) == Cleared(local)
  {
    var after := AfterLogin(local, username, data);
    forall k ensures GetItem(Cleared(after), k) == GetItem(Cleared(local), k) {
      if k !in AuthKeys {
        assert GetItem(after, k) == GetItem(local, k);
      }
    }
    StoreExt(Cleared(after), Cleared(local));
  }

  /** The browser: two storage areas and the location, updated in place. */
  class Browser {
    var local: Store
    var session: Store
    var location: string

    constructor (local: Store, session: Store, location: string)
      ensures State() == BrowserState(local, session, location)
    {
      this.local := local;
      this.session := session;
      this.location := location;
    }

    function State(): BrowserState
      reads this
    {
      BrowserState(local, session, location)
    }

    /** The storage side of `adminLogin`: `data` is the response body the
        login request returned. The body is handed back unchanged. */
    method AdminLogin(username: string, data: Option<LoginData>) returns (r: Option<LoginData>)
      modifies this
      ensures r == data
      ensures local == AfterLogin(old(local), username, data)
      ensures session == old(session) && location == old(location)
    {
      if data.Some? && Truthy(data.value.access) {
        var access, refresh := data.value.access.value, data.value.refresh;
        local := local[AccessTokenKey := access];
        local := local[AuthTokenKey := access];
        if Truthy(refresh) {
          local := local[RefreshTokenKey := refresh.value];
        }
        local := local[AuthenticatedKey := "true"];
        local := local[UsernameKey := username];
        SetItemsMerge(old(local), username, access, refresh);
      }
      r := data;
    }

    /** `logout`: removes each credential key from both areas, then navigates
        to the login route. */
    method Logout()
      modifies this
      ensures State() == AfterLogout(old(State()))
    {
      var i := 0;
      while i < |AuthKeys|
        invariant 0 <= i <= |AuthKeys|
        invariant forall k :: GetItem(local, k) == if k in AuthKeys[..i] then None else GetItem(old(local), k)
        invariant forall k :: GetItem(session, k) == if k in AuthKeys[..i] then None else GetItem(old(session), k)
        invariant location == old(location)
      {
        var key := AuthKeys[i];
        assert forall k :: k in AuthKeys[..i + 1] <==> k in AuthKeys[..i] || k == key;
        RemoveItem(local, key);
        RemoveItem(session, key);
        local := local - {key};
        session := session - {key};
        i := i + 1;
      }
      assert AuthKeys[..i] == AuthKeys;
      StoreExt(local, Cleared(old(local)));
      StoreExt(session, Cleared(old(session)));
      location := LoginPath;
    }
  }
}
