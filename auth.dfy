/** Session tokens in browser storage (ag-gearstore/src/lib/auth.ts). The
    login and register requests are not sent here: each reply is a parameter,
    and the requests the functions would send are returned so that their
    contents can be stated. */
module Auth {
  import opened Base
  import Browser

  const AccessTokenKey := "access_token"
  const RefreshTokenKey := "refresh_token"
  const LoginPath := "/api/users/login/"
  const RegisterPath := "/api/users/register/"

  datatype Credentials = Credentials(username: string, password: string)
  datatype RegisterData = RegisterData(username: string, email: string, password: string)

  /** A POST this module sends, with its JSON body. */
  datatype AuthRequest = LoginRequest(login: Credentials) | RegisterRequest(data: RegisterData) {
    function Path(): string {
      if LoginRequest? then LoginPath else RegisterPath
    }
  }

  datatype Tokens = Tokens(access: string, refresh: string)

  /** The outcome of the login `fetch`: unreachable (the `fetch` promise
      rejects with `reason`), an ok reply with the tokens, or a non-ok reply
      whose body may carry `detail`. */
  datatype LoginReply = LoginUnreachable(reason: string) | LoginOk(tokens: Tokens) | LoginRejected(detail: Option<string>)

  /** The outcome of the register `fetch`; a non-ok body may carry lists of
      field errors for `username` and `email`. */
  datatype RegisterReply =
    | RegisterUnreachable(reason: string)
    | RegisterOk
    | RegisterRejected(usernameErrors: Option<seq<string>>, emailErrors: Option<seq<string>>)

  /** `list?.[0]`: the first entry, when the list is there and non-empty. */
  function First(errors: Option<seq<string>>): (r: Option<string>)
    ensures r.Some? <==> errors.Some? && |errors.value| > 0
    ensures r.Some? ==> r.value == errors.value[0]
  {
    if errors.Some? && |errors.value| > 0 then Some(errors.value[0]) else None
  }

  /** The message a rejected registration throws with. */
  function RegisterFailure(usernameErrors: Option<seq<string>>, emailErrors: Option<seq<string>>): string {
    OrElse(First(usernameErrors), OrElse(First(emailErrors), "Registration failed"))
  }

  /** The message is the first username error when there is a non-empty one,
      else the first email error when there is a non-empty one, else
      "Registration failed". */
  lemma RegisterFailureOrder(usernameErrors: Option<seq<string>>, emailErrors: Option<seq<string>>)
    ensures var m := RegisterFailure(usernameErrors, emailErrors);
      && (Truthy(First(usernameErrors)) ==> m == usernameErrors.value[0])
      && (!Truthy(First(usernameErrors)) && Truthy(First(emailErrors)) ==> m == emailErrors.value[0])
      && (!Truthy(First(usernameErrors)) && !Truthy(First(emailErrors)) ==> m == "Registration failed")
      && m != ""
  {
  }

  /** `login`: on an ok reply both tokens are stored and returned; otherwise
      it throws (the `detail`, else "Invalid credentials", for a rejection)
      and storage is not touched. */
  method Login(storage: Browser.LocalStorage, data: Credentials, reply: LoginReply) returns (request: AuthRequest, r: Result<Tokens>)
    modifies storage
    ensures request == LoginRequest(data)
    ensures reply.LoginOk? ==> (r == Ok(reply.tokens) &&
      storage.entries == old(storage.entries)[AccessTokenKey := reply.tokens.access][RefreshTokenKey := reply.tokens.refresh])
    ensures reply.LoginOk? ==> (IsAuthenticated(storage, true) <==> reply.tokens.access != "")
    ensures reply.LoginRejected? ==> r == Err(OrElse(reply.detail, "Invalid credentials")) && storage.entries == old(storage.entries)
    ensures reply.LoginUnreachable? ==> r == Err(reply.reason) && storage.entries == old(storage.entries)
  {
    request := LoginRequest(data);
    match reply {
      case LoginUnreachable(reason) =>
        r := Err(reason);
      case LoginRejected(detail) =>
        r := Err(OrElse(detail, "Invalid credentials"));
      case LoginOk(tokens) =>
        storage.SetItem(AccessTokenKey, tokens.access);
        storage.SetItem(RefreshTokenKey, tokens.refresh);
        r := Ok(tokens);
    }
  }

  /** `register`: a rejection throws with the first field error; on success
      it logs in with the same username and password, and a failed login
      throws `login`'s own error. */
  method Register(storage: Browser.LocalStorage, data: RegisterData, reply: RegisterReply, loginReply: LoginReply)
    returns (requests: seq<AuthRequest>, r: Result<()>)
    modifies storage
    ensures |requests| >= 1 && requests[0] == RegisterRequest(data)
    ensures reply.RegisterRejected? ==>
      requests == [RegisterRequest(data)] && storage.entries == old(storage.entries) &&
      r == Err(RegisterFailure(reply.usernameErrors, reply.emailErrors))
    ensures reply.RegisterUnreachable? ==>
      requests == [RegisterRequest(data)] && storage.entries == old(storage.entries) && r == Err(reply.reason)
    ensures reply.RegisterOk? ==>
      && requests == [RegisterRequest(data), LoginRequest(Credentials(data.username, data.password))]
      && (loginReply.LoginOk? ==> (r == Ok(()) &&
            storage.entries == old(storage.entries)[AccessTokenKey := loginReply.tokens.access][RefreshTokenKey := loginReply.tokens.refresh]))
      && (!loginReply.LoginOk? ==> storage.entries == old(storage.entries))
      && (loginReply.LoginRejected? ==> r == Err(OrElse(loginReply.detail, "Invalid credentials")))
      && (loginReply.LoginUnreachable? ==> r == Err(loginReply.reason))
  {
    match reply {
      case RegisterUnreachable(reason) =>
        requests, r := [RegisterRequest(data)], Err(reason);
      case RegisterRejected(usernameErrors, emailErrors) =>
        requests, r := [RegisterRequest(data)], Err(RegisterFailure(usernameErrors, emailErrors));
      case RegisterOk =>
        var login, loggedIn := Login(storage, Credentials(data.username, data.password), loginReply);
        requests := [RegisterRequest(data), login];
        r := if loggedIn.Ok? then Ok(()) else Err(loggedIn.message);
    }
  }

  /** `logout` removes exactly the two token keys. */
  method Logout(storage: Browser.LocalStorage)
    modifies storage
    ensures storage.entries == old(storage.entries) - {AccessTokenKey, RefreshTokenKey}
    ensures !IsAuthenticated(storage, true) && !IsAuthenticated(storage, false)
  {
    storage.RemoveItem(AccessTokenKey);
    storage.RemoveItem(RefreshTokenKey);
  }

  /** `getToken`: nothing outside a browser window, else the stored access
      token. */
  function GetToken(storage: Browser.LocalStorage, hasWindow: bool): (t: Option<string>)
    reads storage
    ensures !hasWindow ==> t == None
    ensures hasWindow ==> (t.Some? <==> AccessTokenKey in storage.entries)
    ensures t.Some? ==> t.value == storage.entries[AccessTokenKey]
  {
    if !hasWindow then None else storage.GetItem(AccessTokenKey)
  }

  /** `isAuthenticated`: `!!getToken()`. */
  predicate IsAuthenticated(storage: Browser.LocalStorage, hasWindow: bool)
    reads storage
  {
    Truthy(GetToken(storage, hasWindow))
  }

  /** Authenticated exactly when in a window with a stored, non-empty access
      token: an empty-string token counts as logged out. */
  lemma AuthenticatedIffToken(storage: Browser.LocalStorage, hasWindow: bool)
    ensures IsAuthenticated(storage, hasWindow) <==>
      hasWindow && AccessTokenKey in storage.entries && storage.entries[AccessTokenKey] != ""
  {
  }

  /** Logging out twice leaves the same entries as logging out once. */
  lemma LogoutIdempotent(entries: map<string, string>)
    ensures (entries - {AccessTokenKey, RefreshTokenKey}) - {AccessTokenKey, RefreshTokenKey}
         == entries - {AccessTokenKey, RefreshTokenKey}
    ensures forall k :: k in entries && k != AccessTokenKey && k != RefreshTokenKey ==>
      k in entries - {AccessTokenKey, RefreshTokenKey}
  {
  }
}
