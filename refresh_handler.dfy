/** The `POST /refresh_token` route of the backend: read the refresh token
    from the `jwt` cookie, verify it under the refresh secret, look its user
    up, compare token versions, and either rotate the refresh cookie and hand
    out a new access token or deny with one fixed body.

    The decision is a pure function (`Decide`); the route itself
    (`HandleRefreshToken`) writes it to an Express-like response object. */
module RefreshHandler {
  import opened Auth

  /** Why a request was denied. Kept for the server's own diagnostics; it
      never reaches the response body. */
  datatype Reason = MissingToken | InvalidToken | UnknownUser | StaleVersion

  /** The result of one refresh request. */
  datatype Outcome =
    | Denied(reason: Reason)
    | Success(user: User, accessToken: Token, refreshToken: Token)

  /** The JSON body `{ ok, accessToken }` the route sends. */
  datatype Body = Body(ok: bool, accessToken: string)

  /** `!refreshToken` is false: the cookie exists and is not the empty
      string (both `undefined` and `''` are falsy in JavaScript). */
  predicate Present(cookie: Option<Token>)
  {
    cookie.Some? && cookie.value != ""
  }

  /** The four guards of the route, all passing: a cookie, a token that
      verifies, a user with the token's id, and matching versions. */
  ghost predicate Accepts(cookie: Option<Token>, secret: Secret, signer: Signer, store: Store)
  {
    && Present(cookie)
    && signer.verify(cookie.value, secret).Some?
    && signer.verify(cookie.value, secret).value.userId in store
    && store[signer.verify(cookie.value, secret).value.userId].tokenVersion
         == signer.verify(cookie.value, secret).value.tokenVersion
  }

  /** The route's chain of early returns, as a value. The request succeeds
      exactly when all four guards pass, and then both new tokens are minted
      from the user row that was found. */
  function Decide(cookie: Option<Token>, secret: Secret, signer: Signer, store: Store): (d: Outcome)
    ensures d.Success? <==> Accepts(cookie, secret, signer, store)
    ensures d.Success? ==>
      var claims := signer.verify(cookie.value, secret).value;
      && d.user == store[claims.userId]
      && d.user.tokenVersion == claims.tokenVersion
      && d.accessToken == signer.createAccessToken(d.user)
      && d.refreshToken == signer.createRefreshToken(d.user)
  {
    if !Present(cookie) then Denied(MissingToken)
    else
      match signer.verify(cookie.value, secret)
      case None => Denied(InvalidToken)
      case Some(claims) =>
        if claims.userId !in store then Denied(UnknownUser)
        else
          var user := store[claims.userId];
          if user.tokenVersion != claims.tokenVersion then Denied(StaleVersion)
          else Success(user, signer.createAccessToken(user), signer.createRefreshToken(user))
  }

  /** The body sent for an outcome: `ok` is true only on success, and every
      denial, whatever its reason, is the same `{ ok: false, accessToken: '' }`. */
  function ResponseBody(d: Outcome): (b: Body)
    ensures b.ok <==> d.Success?
    ensures d.Success? ==> b.accessToken == d.accessToken
    ensures d.Denied? ==> b == Body(false, "")
  {
    match d
    case Denied(_) => Body(false, "")
    case Success(_, accessToken, _) => Body(true, accessToken)
  }

  /** The part of an Express response the route touches: the `jwt`
      refresh cookie it may set, and the body, once sent. */
  class Response {
    var cookie: Option<Token>
    var body: Option<Body>

    /** A response as the route receives it: no cookie set, nothing sent. */
    constructor ()
      ensures cookie == None && body == None
    {
      cookie := None;
      body := None;
    }

    /** `sendRefreshToken(res, token)`: sets the `jwt` cookie. Headers
        can only be set before the body is sent. */
    method SendRefreshToken(token: Token)
      requires body.None?
      modifies this
      ensures cookie == Some(token) && body == old(body)
    {
      cookie := Some(token);
    }

    /** `res.send(body)`: a response is sent once and keeps its cookie. */
    method Send(b: Body)
      requires body.None?
      modifies this
      ensures body == Some(b) && cookie == old(cookie)
    {
      body := Some(b);
    }
  }

  /** The `POST /refresh_token` handler. It sends exactly the body of the
      outcome `Decide` gives, sets the rotated refresh cookie only when the
      request succeeds, leaves the cookie alone on every denial, and only
      reads the user repository: no lookup at all when the cookie is missing
      or the token does not verify, one lookup of the token's user otherwise. */
  method HandleRefreshToken(cookie: Option<Token>, secret: Secret, signer: Signer,
                            repo: UserRepository, res: Response)
    returns (outcome: Outcome)
    requires repo.Valid()
    requires res.body.None?
    modifies res, repo`lookups
    ensures repo.users == old(repo.users)
    ensures outcome == Decide(cookie, secret, signer, repo.users)
    ensures res.body == Some(ResponseBody(outcome))
    ensures outcome.Denied? ==> res.cookie == old(res.cookie)
    ensures outcome.Success? ==> res.cookie == Some(outcome.refreshToken)
    ensures outcome == Denied(MissingToken) || outcome == Denied(InvalidToken) ==>
              repo.lookups == old(repo.lookups)
    ensures outcome != Denied(MissingToken) && outcome != Denied(InvalidToken) ==>
              repo.lookups == old(repo.lookups) + [signer.verify(cookie.value, secret).value.userId]
  {
    if !Present(cookie) {
      res.Send(Body(false, ""));
      return Denied(MissingToken);
    }
    var refreshToken := cookie.value;

    var payload := signer.verify(refreshToken, secret);
    if payload.None? {
      res.Send(Body(false, ""));
      return Denied(InvalidToken);
    }
    var claims := payload.value;

    var found := repo.FindOne(claims.userId);
    if found.None? {
      res.Send(Body(false, ""));
      return Denied(UnknownUser);
    }
    var user := found.value;

    if user.tokenVersion != claims.tokenVersion {
      res.Send(Body(false, ""));
      return Denied(StaleVersion);
    }

    var rotated := signer.createRefreshToken(user);
    res.SendRefreshToken(rotated);
    var accessToken := signer.createAccessToken(user);
    res.Send(Body(true, accessToken));
    outcome := Success(user, accessToken, rotated);
  }

  /** Without a usable cookie the request is denied before the verifier or
      the repository is consulted: the outcome is the same whatever they are. */
  lemma MissingCookieConsultsNothing(cookie: Option<Token>, secret: Secret, secret': Secret,
                                     signer: Signer, signer': Signer, store: Store, store': Store)
    requires !Present(cookie)
    ensures Decide(cookie, secret, signer, store) == Denied(MissingToken)
    ensures Decide(cookie, secret, signer, store) == Decide(cookie, secret', signer', store')
  {
  }

  /** An empty `jwt` cookie is treated exactly like a missing one. */
  lemma EmptyCookieIsMissing(secret: Secret, signer: Signer, store: Store)
    ensures Decide(Some(""), secret, signer, store) == Decide(None, secret, signer, store)
    ensures Decide(Some(""), secret, signer, store) == Denied(MissingToken)
  {
  }

  /** A token that fails verification is denied before any user lookup:
      the outcome is the same whatever the stored users are. */
  lemma InvalidTokenSkipsLookup(token: Token, secret: Secret, signer: Signer, store: Store, store': Store)
    requires token != ""
    requires signer.verify(token, secret).None?
    ensures Decide(Some(token), secret, signer, store) == Denied(InvalidToken)
    ensures Decide(Some(token), secret, signer, store) == Decide(Some(token), secret, signer, store')
  {
  }

  /** A valid token whose user no longer exists is denied. */
  lemma UnknownUserDenied(token: Token, secret: Secret, signer: Signer, store: Store)
    requires token != ""
    requires signer.verify(token, secret).Some?
    requires signer.verify(token, secret).value.userId !in store
    ensures Decide(Some(token), secret, signer, store) == Denied(UnknownUser)
  {
  }

  /** A valid token whose embedded version differs from the stored one is denied. */
  lemma StaleVersionDenied(token: Token, secret: Secret, signer: Signer, store: Store)
    requires token != ""
    requires signer.verify(token, secret).Some?
    requires signer.verify(token, secret).value.userId in store
    requires store[signer.verify(token, secret).value.userId].tokenVersion
               != signer.verify(token, secret).value.tokenVersion
    ensures Decide(Some(token), secret, signer, store) == Denied(StaleVersion)
  {
  }

  /** Two denied requests cannot be told apart by their response bodies,
      whichever guard failed for each, even at different moments (verifier)
      and against different tables. */
  lemma DenialsLookAlike(cookie: Option<Token>, cookie': Option<Token>,
                         secret: Secret, secret': Secret, signer: Signer, signer': Signer,
                         store: Store, store': Store)
    requires Decide(cookie, secret, signer, store).Denied?
    requires Decide(cookie', secret', signer', store').Denied?
    ensures ResponseBody(Decide(cookie, secret, signer, store))
         == ResponseBody(Decide(cookie', secret', signer', store'))
  {
  }
}
