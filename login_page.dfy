/** The login form: it asks the token endpoint for a token pair, stores it
    through the session service, and sends the user to the landing page of
    the role named in the access token. The HTTP call is replaced by its
    outcome and `navigate` by the route it is given. */
module LoginPage {
  import opened Common
  import opened AuthServiceModel
  import Models

  /** The landing route for the `rol` claim of the access token. */
  function RouteForRole(rol: Option<string>): (route: string)
    ensures rol == Some("ADMIN") ==> route == "/admin-dashboard"
    ensures rol == Some("AGENTE") ==> route == "/agente-dashboard"
    ensures rol == Some("CLIENTE") ==> route == "/mi-poliza"
    ensures rol !in {Some("ADMIN"), Some("AGENTE"), Some("CLIENTE")} ==> route == "/"
  {
    match rol
    case Some("ADMIN") => "/admin-dashboard"
    case Some("AGENTE") => "/agente-dashboard"
    case Some("CLIENTE") => "/mi-poliza"
    case _ => "/"
  }

  /** Every stored role has a dashboard of its own: the three roles land on
      three different pages, none of them the fallback "/". */
  lemma RolesLandApart(r1: Models.Rol, r2: Models.Rol)
    ensures RouteForRole(Some(r1.Code())) != "/"
    ensures r1 != r2 ==> RouteForRole(Some(r1.Code())) != RouteForRole(Some(r2.Code()))
  {
  }

  /** The `rol` claim as `decodedToken.rol` reads it. */
  function RolClaim(c: Claims): (r: Option<string>)
    ensures r.Some? <==> "rol" in c
    ensures r.Some? ==> r.value == c["rol"]
  {
    if "rol" in c then Some(c["rol"]) else None
  }

  /** The token endpoint's answer: a token pair, or a failed request. */
  datatype TokenResponse = Tokens(access: string, refresh: Option<string>) | Failed

  const DECODE_ERROR := "Hubo un problema al procesar el inicio de sesión."
  const LOGIN_ERROR := "Usuario o contraseña incorrectos."

  /** What is left in storage when the access token cannot be decoded: the
      tokens were stored first and then only the access token is removed. */
  function AfterDecodeFailure(items: map<string, string>, access: string, refresh: Option<string>, now: int)
    : (r: map<string, string>)
    ensures GetItem(r, TOKEN_KEY) == None
    ensures GetItem(r, REFRESH_TOKEN_KEY) == GetItem(StoreTokens(items, access, refresh, now), REFRESH_TOKEN_KEY)
    ensures GetItem(r, LAST_ACTIVITY_KEY) == Some(IntToString(now))
  {
    StoreTokens(items, access, refresh, now) - {TOKEN_KEY}
  }

  /** A token that cannot be decoded leaves the user logged out although the
      refresh token and the activity time stay behind. */
  lemma DecodeFailureLogsOut(items: map<string, string>, access: string, refresh: Option<string>, now: int)
    requires refresh.Some? && refresh.value != ""
    ensures var r := AfterDecodeFailure(items, access, refresh, now);
      && !Authenticated(r, now)
      && GetItem(r, REFRESH_TOKEN_KEY) == refresh
      && !SessionExpired(r, now)
  {
    ParseIntOfIntToString(now);
  }

  /** The page's state: the error text, the loading flag, and the route it
      has navigated to (if any). */
  class LoginForm {
    var error: string
    var loading: bool
    var route: Option<string>

    constructor ()
      ensures error == "" && !loading && route.None?
    {
      error := "";
      loading := false;
      route := None;
    }

    /** `onFinish` up to sending the request: the error is cleared and the
        form shows that it is loading. */
    method OnFinish()
      modifies this
      ensures error == "" && loading && route == old(route)
    {
      error := "";
      loading := true;
    }

    /** The request's `then` and `catch` handlers. */
    method OnResponse(response: TokenResponse, auth: AuthService, now: int)
      modifies this, auth.storage
      ensures !loading
      ensures response.Failed? ==>
        && auth.storage.items == old(auth.storage.items)
        && error == LOGIN_ERROR && route == old(route)
      ensures response.Tokens? && auth.decode(response.access).Some? ==>
        && auth.storage.items == StoreTokens(old(auth.storage.items), response.access, response.refresh, now)
        && route == Some(RouteForRole(RolClaim(auth.decode(response.access).value)))
        && error == old(error)
      ensures response.Tokens? && auth.decode(response.access).None? ==>
        && auth.storage.items == AfterDecodeFailure(old(auth.storage.items), response.access, response.refresh, now)
        && error == DECODE_ERROR && route == old(route)
    {
      match response
      case Failed =>
        loading := false;
        error := LOGIN_ERROR;
      case Tokens(access, refresh) =>
        loading := false;
        auth.SetTokens(access, refresh, now);
        match auth.decode(access)
        case Some(claims) =>
          route := Some(RouteForRole(RolClaim(claims)));
        case None =>
          error := DECODE_ERROR;
          auth.storage.items := auth.storage.items - {TOKEN_KEY};
    }
  }
}
