/** `getAdminToken`: which stored credential authorizes the next request. */
module TokenLookup {
  import opened WebStorage

  /** The current key name for the access token. */
  const AccessTokenKey := "accessToken"
  /** The legacy alias under which the access token is also stored. */
  const AuthTokenKey := "authToken"

  /** The two candidates one storage area offers, in the order they are tried. */
  function StoreCandidates(s: Store): (cs: seq<Option<string>>)
    ensures |cs| == 2
  {
    [GetItem(s, AccessTokenKey), GetItem(s, AuthTokenKey)]
  }

  /** All four (store, key) candidates: the durable area first, then the per-tab one. */
  function Candidates(local: Store, session: Store): (cs: seq<Option<string>>)
    ensures |cs| == 4
  {
    StoreCandidates(local) + StoreCandidates(session)
  }

  /** Reference definition of the lookup: the first truthy candidate, or `""`
      when there is none. */
  function FirstTruthy(cs: seq<Option<string>>): (r: string)
    ensures r == "" <==> forall i :: 0 <= i < |cs| ==> !Truthy(cs[i])
    ensures r != "" ==> exists i :: 0 <= i < |cs| && cs[i] == Some(r) &&
                                    forall j :: 0 <= j < i ==> !Truthy(cs[j])
  {
    if cs == [] then ""
    else if Truthy(cs[0]) then cs[0].value
    else
      var r := FirstTruthy(cs[1..]);
      assert forall i :: 1 <= i < |cs| ==> cs[i] == cs[1..][i - 1];
      r
  }

  /** The token one storage area supplies on its own. */
  function StoreToken(s: Store): string {
    FirstTruthy(StoreCandidates(s))
  }

  /** `getAdminToken`: the left-associated `||` chain over the four lookups,
      ending in `""`. */
  function AdminToken(local: Store, session: Store): (t: string)
    ensures t == FirstTruthy(Candidates(local, session))
  {
    var chain := Or(Or(Or(Or(GetItem(local, AccessTokenKey), GetItem(local, AuthTokenKey)),
                          GetItem(session, AccessTokenKey)),
                       GetItem(session, AuthTokenKey)),
                    Some(""));
    assert Candidates(local, session) == [GetItem(local, AccessTokenKey), GetItem(local, AuthTokenKey),
                                          GetItem(session, AccessTokenKey), GetItem(session, AuthTokenKey)];
    OrChainIsFirstTruthy(GetItem(local, AccessTokenKey), GetItem(local, AuthTokenKey),
                         GetItem(session, AccessTokenKey), GetItem(session, AuthTokenKey));
    chain.value
  }

  /** A left-associated `a || b || c || d || ""` picks the first truthy operand. */
  lemma OrChainIsFirstTruthy(a: Option<string>, b: Option<string>, c: Option<string>, d: Option<string>)
    ensures Or(Or(Or(Or(a, b), c), d), Some("")) == Some(FirstTruthy([a, b, c, d]))
  {
    assert [a, b, c, d][1..] == [b, c, d] && [b, c, d][1..] == [c, d];
    assert [c, d][1..] == [d] && [d][1..] == [];
    assert FirstTruthy([d]) == if Truthy(d) then d.value else FirstTruthy([]);
    assert FirstTruthy([c, d]) == if Truthy(c) then c.value else FirstTruthy([d]);
    assert FirstTruthy([b, c, d]) == if Truthy(b) then b.value else FirstTruthy([c, d]);
    assert FirstTruthy([a, b, c, d]) == if Truthy(a) then a.value else FirstTruthy([b, c, d]);
  }

  /** A truthy candidate in a prefix hides everything after it. */
  lemma {:induction false} FirstTruthyPrefix(a: seq<Option<string>>, b: seq<Option<string>>)
    requires FirstTruthy(a) != ""
    ensures FirstTruthy(a + b) == FirstTruthy(a)
  {
    assert a != [];
    assert (a + b)[0] == a[0];
    if !Truthy(a[0]) {
      assert (a + b)[1..] == a[1..] + b;
      FirstTruthyPrefix(a[1..], b);
    }
  }

  /** A prefix with no truthy candidate is skipped over. */
  lemma {:induction false} FirstTruthySkip(a: seq<Option<string>>, b: seq<Option<string>>)
    requires FirstTruthy(a) == ""
    ensures FirstTruthy(a + b) == FirstTruthy(b)
  {
    if a != [] {
      assert (a + b)[0] == a[0];
      assert (a + b)[1..] == a[1..] + b;
      FirstTruthySkip(a[1..], b);
    } else {
      assert a + b == b;
    }
  }

  /** Durable-scope precedence: the lookup takes the durable area's token when
      it has one, whatever the per-tab area holds, and falls back to the
      per-tab area only otherwise. */
  lemma DurableFirst(local: Store, session: Store)
    ensures AdminToken(local, session) ==
            if StoreToken(local) != "" then StoreToken(local) else StoreToken(session)
  {
    if StoreToken(local) != "" {
      FirstTruthyPrefix(StoreCandidates(local), StoreCandidates(session));
    } else {
      FirstTruthySkip(StoreCandidates(local), StoreCandidates(session));
    }
  }

  /** A present, non-empty `localStorage.accessToken` always wins. */
  lemma AccessTokenWins(local: Store, session: Store)
    requires AccessTokenKey in local && local[AccessTokenKey] != ""
    ensures AdminToken(local, session) == local[AccessTokenKey]
  {
  }

  /** With no usable token in either area the lookup yields `""`. */
  lemma NoTokenIsEmpty(local: Store, session: Store)
    requires !Truthy(GetItem(local, AccessTokenKey)) && !Truthy(GetItem(local, AuthTokenKey))
    requires !Truthy(GetItem(session, AccessTokenKey)) && !Truthy(GetItem(session, AuthTokenKey))
    ensures AdminToken(local, session) == ""
  {
  }
}
