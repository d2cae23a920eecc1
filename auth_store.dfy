/**
 * The authentication store: the session token, the signed-in user and the
 * mailbox quota, persisted in two browser key-value stores (the token and
 * the user in local storage, the decrypted private key in session storage).
 */
module Auth {
  import opened Wrappers
  import opened Types

  const TokenKey: string := "mm_token"
  const UserKey: string := "mm_user"
  const PrivateKeyKey: string := "mm_private_key"

  /** What `JSON.parse` makes of a stored user: a user, `null`, or a thrown error. */
  datatype ParsedUser = Parsed(user: Option<UserInfo>) | Unparsable

  /** `JSON.stringify` and `JSON.parse` for user records. */
  datatype UserCodec = UserCodec(stringify: UserInfo -> string, parse: string -> ParsedUser)

  /** Parsing what was serialized gives the user back; a serialized object is never empty. */
  ghost predicate CodecRoundTrip(c: UserCodec) {
    forall u: UserInfo {:trigger c.stringify(u)} :: c.stringify(u) != "" && c.parse(c.stringify(u)) == Parsed(Some(u))
  }

  /** The store's fields together with both browser stores. */
  datatype AuthView = AuthView(
    token: Option<string>,
    user: Option<UserInfo>,
    emailSize: int,
    emailSizeLimit: int,
    local: map<string, string>,
    session: map<string, string>)

  /** A stored string counts only when it is present and non-empty (truthiness). */
  function Stored(m: map<string, string>, key: string): Option<string> {
    if key in m && m[key] != "" then Some(m[key]) else None
  }

  /** `setAuth`: persist the token and the serialized user, then hold both. */
  function SetAuthSpec(v: AuthView, c: UserCodec, token: string, user: UserInfo): (r: AuthView)
    ensures r.token == Some(token) && r.user == Some(user)
    ensures r.local.Keys == v.local.Keys + {TokenKey, UserKey}
    ensures r.local[TokenKey] == token && r.local[UserKey] == c.stringify(user)
    ensures forall k :: k in v.local && k != TokenKey && k != UserKey ==> r.local[k] == v.local[k]
    ensures r.session == v.session && r.emailSize == v.emailSize && r.emailSizeLimit == v.emailSizeLimit
  {
    v.(token := Some(token), user := Some(user), local := v.local[TokenKey := token][UserKey := c.stringify(user)])
  }

  /** `clearAuth`: forget the token, the user and the cached private key, and zero the quota. */
  function ClearAuthSpec(v: AuthView): (r: AuthView)
    ensures r.token.None? && r.user.None? && r.emailSize == 0 && r.emailSizeLimit == 0
    ensures TokenKey !in r.local && UserKey !in r.local && PrivateKeyKey !in r.session
    ensures forall k :: k in v.local && k != TokenKey && k != UserKey ==> k in r.local && r.local[k] == v.local[k]
    ensures forall k :: k in v.session && k != PrivateKeyKey ==> k in r.session && r.session[k] == v.session[k]
  {
    AuthView(None, None, 0, 0, v.local - {TokenKey, UserKey}, v.session - {PrivateKeyKey})
  }

  /**
   * `loadFromStorage`: outside a browser it does nothing; otherwise, only
   * when both a token and a user are stored, it takes the token and the
   * parsed user, or clears both when the user does not parse.
   */
  function LoadSpec(v: AuthView, c: UserCodec, hasWindow: bool): (r: AuthView)
    ensures r.local == v.local && r.session == v.session
    ensures r.emailSize == v.emailSize && r.emailSizeLimit == v.emailSizeLimit
    ensures !hasWindow || Stored(v.local, TokenKey).None? || Stored(v.local, UserKey).None? ==> r == v
    ensures hasWindow && Stored(v.local, TokenKey).Some? && Stored(v.local, UserKey).Some? ==>
      match c.parse(v.local[UserKey])
      case Parsed(u) => r.token == Some(v.local[TokenKey]) && r.user == u
      case Unparsable => r.token.None? && r.user.None?
  {
    if !hasWindow then v
    else match (Stored(v.local, TokenKey), Stored(v.local, UserKey))
      case (Some(token), Some(userStr)) =>
        (match c.parse(userStr)
         case Parsed(u) => v.(token := Some(token), user := u)
         case Unparsable => v.(token := None, user := None))
      case _ => v
  }

  /** `getCachedPrivateKey`: nothing outside a browser, else the session entry. */
  function CachedKey(v: AuthView, hasWindow: bool): Option<string> {
    if hasWindow && PrivateKeyKey in v.session then Some(v.session[PrivateKeyKey]) else None
  }

  /** `setCachedPrivateKey`. */
  function SetCachedKeySpec(v: AuthView, key: string): (r: AuthView)
    ensures r.session.Keys == v.session.Keys + {PrivateKeyKey}
    ensures forall k :: k in v.session && k != PrivateKeyKey ==> r.session[k] == v.session[k]
    ensures r.(session := v.session) == v
  {
    v.(session := v.session[PrivateKeyKey := key])
  }

  /** A key just cached is what the cache returns, in a browser. */
  lemma CachedKeyAfterSet(v: AuthView, key: string, hasWindow: bool)
    ensures CachedKey(SetCachedKeySpec(v, key), hasWindow) == if hasWindow then Some(key) else None
  {
  }

  /** After `clearAuth` no private key is cached. */
  lemma NoCachedKeyAfterClear(v: AuthView, hasWindow: bool)
    ensures CachedKey(ClearAuthSpec(v), hasWindow).None?
  {
  }

  /** Reloading right after `setAuth` restores the same session. */
  lemma LoadAfterSetAuth(v: AuthView, c: UserCodec, token: string, user: UserInfo)
    requires CodecRoundTrip(c) && token != ""
    ensures LoadSpec(SetAuthSpec(v, c, token, user), c, true) == SetAuthSpec(v, c, token, user)
  {
    assert c.stringify(user) != "";
  }

  /** Reloading right after `clearAuth` signs nobody in. */
  lemma LoadAfterClear(v: AuthView, c: UserCodec, hasWindow: bool)
    ensures LoadSpec(ClearAuthSpec(v), c, hasWindow) == ClearAuthSpec(v)
  {
  }

  class AuthStore {
    var token: Option<string>
    var user: Option<UserInfo>
    var emailSize: int
    var emailSizeLimit: int
    /** The browser's `localStorage`. */
    var local: map<string, string>
    /** The browser's `sessionStorage`. */
    var session: map<string, string>
    /** `typeof window !== "undefined"`. */
    const hasWindow: bool
    const codec: UserCodec

    function View(): AuthView
      reads this
    {
      AuthView(token, user, emailSize, emailSizeLimit, local, session)
    }

    /** The initial state, over whatever the browser has stored. */
    constructor (hasWindow: bool, codec: UserCodec, local: map<string, string>, session: map<string, string>)
      ensures View() == AuthView(None, None, 0, 0, local, session)
      ensures this.hasWindow == hasWindow && this.codec == codec
    {
      this.hasWindow, this.codec := hasWindow, codec;
      token, user, emailSize, emailSizeLimit := None, None, 0, 0;
      this.local, this.session := local, session;
    }

    method SetAuth(token: string, user: UserInfo)
      modifies this
      ensures View() == SetAuthSpec(old(View()), codec, token, user)
    {
      local := local[TokenKey := token];
      local := local[UserKey := codec.stringify(user)];
      this.token, this.user := Some(token), Some(user);
    }

    method ClearAuth()
      modifies this
      ensures View() == ClearAuthSpec(old(View()))
    {
      local := local - {TokenKey};
      local := local - {UserKey};
      session := session - {PrivateKeyKey};
      token, user, emailSize, emailSizeLimit := None, None, 0, 0;
    }

    method LoadFromStorage()
      modifies this
      ensures View() == LoadSpec(old(View()), codec, hasWindow)
    {
      if !hasWindow {
        return;
      }
      var storedToken := Stored(local, TokenKey);
      var userStr := Stored(local, UserKey);
      if storedToken.Some? && userStr.Some? {
        match codec.parse(userStr.value)
        case Parsed(u) =>
          token, user := storedToken, u;
        case Unparsable =>
          token, user := None, None;
      }
    }

    /**
     * `fetchProfile`, given the profile endpoint's answer (`None` when the
     * request failed, which is only logged): the two quota figures.
     */
    method FetchProfile(response: Option<(int, int)>)
      modifies this
      ensures response.Some? ==> View() == old(View()).(emailSize := response.value.0, emailSizeLimit := response.value.1)
      ensures response.None? ==> View() == old(View())
    {
      if response.Some? {
        emailSize, emailSizeLimit := response.value.0, response.value.1;
      }
    }

    function GetCachedPrivateKey(): (k: Option<string>)
      reads this
      ensures k.Some? ==> hasWindow && PrivateKeyKey in session && k.value == session[PrivateKeyKey]
      ensures k.None? ==> !hasWindow || PrivateKeyKey !in session
    {
      CachedKey(View(), hasWindow)
    }

    method SetCachedPrivateKey(key: string)
      modifies this
      ensures View() == SetCachedKeySpec(old(View()), key)
      ensures hasWindow ==> GetCachedPrivateKey() == Some(key)
    {
      session := session[PrivateKeyKey := key];
    }
  }
}
