/** The browser-side session store: the access and refresh tokens and the
    time of the last activity kept in `localStorage`, a 30-minute inactivity
    expiry, and the user identity read from the access token's claims.
    `localStorage` is an object holding a map from key to text, `Date.now()`
    is the parameter `now` (milliseconds), and `jwtDecode` is a partial
    function from a token to its claims. */
module AuthServiceModel {
  import opened Common

  const TOKEN_KEY := "accessToken"
  const REFRESH_TOKEN_KEY := "refreshToken"
  const LAST_ACTIVITY_KEY := "lastActivity"
  /** 30 minutes in milliseconds. */
  const SESSION_TIMEOUT: int := 30 * 60 * 1000

  /** The decoded claims of a token, by claim name. */
  type Claims = map<string, string>

  /** The browser's `localStorage`, shared by every page. */
  class LocalStorage {
    var items: map<string, string>

    constructor (items: map<string, string>)
      ensures this.items == items
    {
      this.items := items;
    }
  }

  /** `localStorage.getItem(key)`; `None` stands for `null`. */
  function GetItem(items: map<string, string>, key: string): (r: Option<string>)
    ensures r.Some? <==> key in items
    ensures r.Some? ==> r.value == items[key]
  {
    if key in items then Some(items[key]) else None
  }

  // ---------------------------------------------------------------------
  // Session expiry
  // ---------------------------------------------------------------------

  /** `isSessionExpired`: expired when no (or an empty) last-activity entry
      is stored; otherwise when more than the timeout has elapsed since it.
      An entry `parseInt` cannot read gives `NaN`, and `NaN > timeout` is
      false, so such a session never expires. */
  predicate SessionExpired(items: map<string, string>, now: int)
    ensures GetItem(items, LAST_ACTIVITY_KEY) in {None, Some("")} ==> SessionExpired(items, now)
    ensures forall t :: GetItem(items, LAST_ACTIVITY_KEY) == Some(IntToString(t)) ==>
      (SessionExpired(items, now) <==> now - t > SESSION_TIMEOUT)
    ensures var last := GetItem(items, LAST_ACTIVITY_KEY);
      last.Some? && last.value != "" && ParseInt(last.value).None? ==> !SessionExpired(items, now)
  {
    ParseIntInverts();
    var last := GetItem(items, LAST_ACTIVITY_KEY);
    if last.None? || last.value == "" then true
    else match ParseInt(last.value)
      case None => false
      case Some(t) => now - t > SESSION_TIMEOUT
  }

  /** Expiry is monotone in time: once expired, a later clock reading is
      expired too. */
  lemma ExpiryMonotone(items: map<string, string>, t1: int, t2: int)
    requires t1 <= t2 && SessionExpired(items, t1)
    ensures SessionExpired(items, t2)
  {
  }

  /** The exact boundary: 30 minutes after the last activity the session is
      still alive, one millisecond later it has expired. */
  lemma ExpiryBoundary(items: map<string, string>, t: int)
    requires GetItem(items, LAST_ACTIVITY_KEY) == Some(IntToString(t))
    ensures !SessionExpired(items, t + SESSION_TIMEOUT)
    ensures SessionExpired(items, t + SESSION_TIMEOUT + 1)
  {
    ParseIntOfIntToString(t);
  }

  /** `isAuthenticated`: a non-empty access token and a live session. */
  predicate Authenticated(items: map<string, string>, now: int)
    ensures Authenticated(items, now) ==> TOKEN_KEY in items && items[TOKEN_KEY] != ""
    ensures Authenticated(items, now) ==> !SessionExpired(items, now)
    ensures TOKEN_KEY in items && items[TOKEN_KEY] != "" && !SessionExpired(items, now) ==> Authenticated(items, now)
  {
    var token := GetItem(items, TOKEN_KEY);
    token.Some? && token.value != "" && !SessionExpired(items, now)
  }

  // ---------------------------------------------------------------------
  // Writes, as functions of the stored items
  // ---------------------------------------------------------------------

  /** `updateLastActivity`: stores `Date.now().toString()`. */
  function RecordActivity(items: map<string, string>, now: int): (r: map<string, string>)
    ensures r.Keys == items.Keys + {LAST_ACTIVITY_KEY}
    ensures GetItem(r, LAST_ACTIVITY_KEY) == Some(IntToString(now))
    ensures forall k :: k in items && k != LAST_ACTIVITY_KEY ==> r[k] == items[k]
  {
    items[LAST_ACTIVITY_KEY := IntToString(now)]
  }

  /** `setTokens`: the access token always, the refresh token only when it is
      given and non-empty, then the activity time. */
  function StoreTokens(items: map<string, string>, access: string, refresh: Option<string>, now: int)
    : (r: map<string, string>)
    ensures GetItem(r, TOKEN_KEY) == Some(access)
    ensures refresh.Some? && refresh.value != "" ==> GetItem(r, REFRESH_TOKEN_KEY) == refresh
    ensures !(refresh.Some? && refresh.value != "") ==> GetItem(r, REFRESH_TOKEN_KEY) == GetItem(items, REFRESH_TOKEN_KEY)
    ensures GetItem(r, LAST_ACTIVITY_KEY) == Some(IntToString(now))
    ensures r.Keys == items.Keys + {TOKEN_KEY, LAST_ACTIVITY_KEY}
      + (if refresh.Some? && refresh.value != "" then {REFRESH_TOKEN_KEY} else {})
    ensures forall k :: k in items && k !in {TOKEN_KEY, REFRESH_TOKEN_KEY, LAST_ACTIVITY_KEY} ==> k in r && r[k] == items[k]
  {
    var withAccess := items[TOKEN_KEY := access];
    var withRefresh := if refresh.Some? && refresh.value != "" then withAccess[REFRESH_TOKEN_KEY := refresh.value] else withAccess;
    RecordActivity(withRefresh, now)
  }

  /** `logout`: removes exactly the three session keys. */
  function ClearSession(items: map<string, string>): (r: map<string, string>)
    ensures r.Keys == items.Keys - {TOKEN_KEY, REFRESH_TOKEN_KEY, LAST_ACTIVITY_KEY}
    ensures forall k :: k in r ==> r[k] == items[k]
  {
    items - {TOKEN_KEY, REFRESH_TOKEN_KEY, LAST_ACTIVITY_KEY}
  }

  /** Recording activity makes the session live at that same clock reading. */
  lemma ActivityNotExpired(items: map<string, string>, now: int)
    ensures !SessionExpired(RecordActivity(items, now), now)
  {
    ParseIntOfIntToString(now);
  }

  /** Right after `setTokens` with a non-empty access token the user is
      authenticated. */
  lemma StoreTokensAuthenticates(items: map<string, string>, access: string, refresh: Option<string>, now: int)
    requires access != ""
    ensures Authenticated(StoreTokens(items, access, refresh, now), now)
  {
    var r := StoreTokens(items, access, refresh, now);
    ParseIntOfIntToString(now);
    assert GetItem(r, LAST_ACTIVITY_KEY) == Some(IntToString(now));
  }

  /** After `logout` no token is stored, the session counts as expired and
      nobody is authenticated, whatever the clock says. */
  lemma ClearSessionLogsOut(items: map<string, string>, now: int)
    ensures GetItem(ClearSession(items), TOKEN_KEY) == None
    ensures GetItem(ClearSession(items), REFRESH_TOKEN_KEY) == None
    ensures SessionExpired(ClearSession(items), now)
    ensures !Authenticated(ClearSession(items), now)
  {
  }

  // ---------------------------------------------------------------------
  // Identity
  // ---------------------------------------------------------------------

  datatype UserInfo = UserInfo(username: string, firstName: string, lastName: string, email: string, rol: string)

  /** `decoded.claim || ''`: a missing claim reads as the empty text. */
  function Claim(c: Claims, name: string): (r: string)
    ensures name in c ==> r == c[name]
    ensures name !in c ==> r == ""
  {
    if name in c then c[name] else ""
  }

  /** `getUserInfo`: nothing without a non-empty token or when the token
      does not decode; otherwise the five claims, each defaulting to ''. */
  function UserInfoOf(items: map<string, string>, decode: string -> Option<Claims>): (r: Option<UserInfo>)
    ensures r.Some? <==> TOKEN_KEY in items && items[TOKEN_KEY] != "" && decode(items[TOKEN_KEY]).Some?
    ensures r.Some? ==> var c := decode(items[TOKEN_KEY]).value;
      r.value == UserInfo(Claim(c, "username"), Claim(c, "first_name"), Claim(c, "last_name"),
                          Claim(c, "email"), Claim(c, "rol"))
  {
    var token := GetItem(items, TOKEN_KEY);
    if token.None? || token.value == "" then None
    else match decode(token.value)
      case None => None
      case Some(c) =>
        Some(UserInfo(Claim(c, "username"), Claim(c, "first_name"), Claim(c, "last_name"),
                      Claim(c, "email"), Claim(c, "rol")))
  }

  /** `getFullName`: "first last" when both are set, the first name when only
      it is set, the username otherwise, and "Usuario" without user info. */
  function FullName(info: Option<UserInfo>): (r: string)
    ensures info.None? ==> r == "Usuario"
    ensures info.Some? && info.value.firstName == "" ==> r == info.value.username
    ensures info.Some? && info.value.firstName != "" ==> StartsWith(r, info.value.firstName)
    ensures info.Some? && info.value.firstName != "" && info.value.lastName == "" ==> r == info.value.firstName
    ensures info.Some? && info.value.firstName != "" && info.value.lastName != "" ==>
      r == info.value.firstName + " " + info.value.lastName
  {
    match info
    case None => "Usuario"
    case Some(u) =>
      if u.firstName != "" && u.lastName != "" then u.firstName + " " + u.lastName
      else if u.firstName != "" then u.firstName
      else u.username
  }

  /** `getUsername`: never empty, "Usuario" standing in for a missing or
      empty username. */
  function Username(info: Option<UserInfo>): (r: string)
    ensures r != ""
    ensures info.Some? && info.value.username != "" ==> r == info.value.username
    ensures !(info.Some? && info.value.username != "") ==> r == "Usuario"
  {
    if info.Some? && info.value.username != "" then info.value.username else "Usuario"
  }

  /** `getUserRole`: the role claim, or '' without user info. */
  function UserRole(info: Option<UserInfo>): (r: string)
    ensures info.Some? ==> r == info.value.rol
    ensures info.None? ==> r == ""
  {
    if info.Some? then info.value.rol else ""
  }

  /** A stored token that does not decode yields no identity: the name falls
      back to "Usuario" and the role to ''. */
  lemma UndecodableTokenIsAnonymous(items: map<string, string>, decode: string -> Option<Claims>)
    requires TOKEN_KEY in items && decode(items[TOKEN_KEY]).None?
    ensures FullName(UserInfoOf(items, decode)) == "Usuario"
    ensures Username(UserInfoOf(items, decode)) == "Usuario"
    ensures UserRole(UserInfoOf(items, decode)) == ""
  {
  }

  // ---------------------------------------------------------------------
  // The service object
  // ---------------------------------------------------------------------

  /** `AuthService`: its writes go to the shared `localStorage`. */
  class AuthService {
    const storage: LocalStorage
    const decode: string -> Option<Claims>

    constructor (storage: LocalStorage, decode: string -> Option<Claims>)
      ensures this.storage == storage && this.decode == decode
    {
      this.storage := storage;
      this.decode := decode;
    }

    /** `updateLastActivity`. */
    method UpdateLastActivity(now: int)
      modifies storage
      ensures storage.items == RecordActivity(old(storage.items), now)
    {
      storage.items := storage.items[LAST_ACTIVITY_KEY := IntToString(now)];
    }

    /** `setTokens`: the writes in the order the source makes them. */
    method SetTokens(access: string, refresh: Option<string>, now: int)
      modifies storage
      ensures storage.items == StoreTokens(old(storage.items), access, refresh, now)
    {
      storage.items := storage.items[TOKEN_KEY := access];
      if refresh.Some? && refresh.value != "" {
        storage.items := storage.items[REFRESH_TOKEN_KEY := refresh.value];
      }
      UpdateLastActivity(now);
    }

    /** `logout`: one removal per key. */
    method Logout()
      modifies storage
      ensures storage.items == ClearSession(old(storage.items))
    {
      storage.items := storage.items - {TOKEN_KEY};
      storage.items := storage.items - {REFRESH_TOKEN_KEY};
      storage.items := storage.items - {LAST_ACTIVITY_KEY};
    }
  }
}
