/**
 * JwtAuthenticationFilter: per request, reads the access token, publishes the
 * principal it carries when it is valid, and otherwise tries to re-issue an
 * access token from the refresh token. It never rejects a request.
 */
module JwtFilter {
  import opened Wrappers
  import opened CmmUtil
  import opened Servlet
  import opened SpringSecurity
  import opened Jwt

  /** Servlet-path fragments whose requests the filter skips, in the order they are tested. */
  const ExcludedFragments: seq<string> :=
    ["/css/", "/js/", "/html/index.html", "/html/ss/", "/login/v1/", "/reg/v1", "/favicon.ico"]

  /**
   * shouldNotFilter: the (null-normalised) servlet path contains one of the
   * excluded fragments. A null path is "" and is never skipped.
   */
  function ShouldNotFilter(request: Request): (r: bool)
    ensures r <==> exists k :: 0 <= k < |ExcludedFragments| && Contains(Nvl(request.servletPath), ExcludedFragments[k])
    ensures request.servletPath == None ==> !r
  {
    var path := Nvl(request.servletPath);
    var r := Contains(path, "/css/") || Contains(path, "/js/") || Contains(path, "/html/index.html") ||
      Contains(path, "/html/ss/") || Contains(path, "/login/v1/") || Contains(path, "/reg/v1") ||
      Contains(path, "/favicon.ico");
    assert r ==> exists k :: 0 <= k < |ExcludedFragments| && Contains(path, ExcludedFragments[k]) by {
      if Contains(path, "/css/") { assert Contains(path, ExcludedFragments[0]); }
      else if Contains(path, "/js/") { assert Contains(path, ExcludedFragments[1]); }
      else if Contains(path, "/html/index.html") { assert Contains(path, ExcludedFragments[2]); }
      else if Contains(path, "/html/ss/") { assert Contains(path, ExcludedFragments[3]); }
      else if Contains(path, "/login/v1/") { assert Contains(path, ExcludedFragments[4]); }
      else if Contains(path, "/reg/v1") { assert Contains(path, ExcludedFragments[5]); }
      else if Contains(path, "/favicon.ico") { assert Contains(path, ExcludedFragments[6]); }
    }
    r
  }

  class JwtAuthenticationFilter {
    const accessTokenValidTime: int
    const accessTokenName: string
    const jwtTokenProvider: JwtTokenProvider

    constructor (accessTokenValidTime: int, accessTokenName: string, jwtTokenProvider: JwtTokenProvider)
      ensures this.accessTokenValidTime == accessTokenValidTime
      ensures this.accessTokenName == accessTokenName
      ensures this.jwtTokenProvider == jwtTokenProvider
    {
      this.accessTokenValidTime := accessTokenValidTime;
      this.accessTokenName := accessTokenName;
      this.jwtTokenProvider := jwtTokenProvider;
    }

    /** The cookie written first on renewal: the access cookie's name, an empty value, maxAge 0, nothing else set. */
    function ClearCookie(): (c: ResponseCookie)
      ensures c.name == accessTokenName && c.value == "" && c.maxAge == 0
      ensures c.domain.None? && c.path.None? && !c.httpOnly
    {
      ResponseCookie(accessTokenName, "", 0, None, None, false)
    }

    /** The cookie carrying a re-issued access token. */
    function RenewedCookie(token: string): (c: ResponseCookie)
      ensures c.name == accessTokenName && c.value == token && c.maxAge == accessTokenValidTime
      ensures c.domain == Some("localhost") && c.path == Some("/") && c.httpOnly
    {
      ResponseCookie(accessTokenName, token, accessTokenValidTime, Some("localhost"), Some("/"), true)
    }

    /** The access token as the filter sees it: null becomes "". */
    function AccessTokenOf(request: Request): string {
      Nvl(jwtTokenProvider.resolve(request, AccessToken))
    }

    /** The refresh token as the filter sees it: null becomes "". */
    function RefreshTokenOf(request: Request): string {
      Nvl(jwtTokenProvider.resolve(request, RefreshToken))
    }

    function AccessStatus(request: Request): JwtStatus {
      jwtTokenProvider.validate(AccessTokenOf(request))
    }

    function RefreshStatus(request: Request): JwtStatus {
      jwtTokenProvider.validate(RefreshTokenOf(request))
    }

    /** The access token re-issued from the refresh token's claims. */
    function ReissuedToken(request: Request): string {
      jwtTokenProvider.create(jwtTokenProvider.tokenInfo(RefreshTokenOf(request)), AccessToken)
    }

    /** The provider's log once the access token has been read and validated. */
    function AccessChecked(log: seq<ProviderCall>, request: Request): seq<ProviderCall> {
      log + [Resolved(AccessToken)] + [Validated(AccessTokenOf(request))]
    }

    /** The provider's log once both tokens have been read and validated. */
    function RefreshChecked(log: seq<ProviderCall>, request: Request): seq<ProviderCall> {
      AccessChecked(log, request) + [Resolved(RefreshToken)] + [Validated(RefreshTokenOf(request))]
    }

    /** Valid access token: its principal is published, nothing is written, the refresh token is not read. */
    twostate predicate Authenticated(request: Request, response: HttpResponse, context: SecurityContext)
      reads jwtTokenProvider, response, context
    {
      var acc := AccessTokenOf(request);
      jwtTokenProvider.calls == AccessChecked(old(jwtTokenProvider.calls), request) + [AuthenticationRead(acc)] &&
      response.headers == old(response.headers) &&
      context.authentication == jwtTokenProvider.authenticationOf(acc)
    }

    /**
     * Expired or denied access token, valid refresh token: an access token is
     * re-issued from the refresh token's claims, is the one Set-Cookie left,
     * and its principal is published.
     */
    twostate predicate Renewed(request: Request, response: HttpResponse, context: SecurityContext)
      reads jwtTokenProvider, response, context
    {
      var ref := RefreshTokenOf(request);
      var reissued := ReissuedToken(request);
      jwtTokenProvider.calls == RefreshChecked(old(jwtTokenProvider.calls), request)
        + [TokenInfoRead(ref)] + [Created(jwtTokenProvider.tokenInfo(ref), AccessToken)] + [AuthenticationRead(reissued)] &&
      response.headers == WithHeaderSet(old(response.headers), SetCookie, CookieText(RenewedCookie(reissued))) &&
      ValuesNamed(response.headers, SetCookie) == [CookieText(RenewedCookie(reissued))] &&
      context.authentication == jwtTokenProvider.authenticationOf(reissued)
    }

    /** The provider's log is `log`, and nothing else changed. */
    twostate predicate OnlyCalled(log: seq<ProviderCall>, response: HttpResponse, context: SecurityContext)
      reads jwtTokenProvider, response, context
    {
      jwtTokenProvider.calls == log &&
      response.headers == old(response.headers) &&
      context.authentication == old(context.authentication)
    }

    /**
     * What doFilterInternal does, branch by branch on the two token statuses.
     * The request always goes on down the chain, exactly once.
     */
    twostate predicate InternalEffect(request: Request, response: HttpResponse, chain: FilterChain, context: SecurityContext)
      reads jwtTokenProvider, response, chain, context
    {
      chain.passed == old(chain.passed) + [request] &&
      (AccessStatus(request) == Access ==> Authenticated(request, response, context)) &&
      ((AccessStatus(request) == Expired || AccessStatus(request) == Denied) && RefreshStatus(request) == Access ==>
        Renewed(request, response, context)) &&
      ((AccessStatus(request) == Expired || AccessStatus(request) == Denied) && RefreshStatus(request) != Access ==>
        OnlyCalled(RefreshChecked(old(jwtTokenProvider.calls), request), response, context)) &&
      (AccessStatus(request) == OtherStatus ==>
        OnlyCalled(AccessChecked(old(jwtTokenProvider.calls), request), response, context))
    }

    /**
     * On renewal the two setHeader calls leave only the renewed cookie: the
     * clearing cookie written first is no longer among the Set-Cookie values,
     * whatever the response held before.
     */
    lemma ClearCookieOverwritten(headers: seq<Header>, token: string)
      ensures var after := WithHeaderSet(WithHeaderSet(headers, SetCookie, CookieText(ClearCookie())),
                                         SetCookie, CookieText(RenewedCookie(token)));
        ValuesNamed(after, SetCookie) == [CookieText(RenewedCookie(token))] &&
        CookieText(ClearCookie()) !in ValuesNamed(after, SetCookie)
    {
    }

    /**
     * The clearing cookie does not name the renewed cookie's scope: it sets
     * neither the domain nor the path the access cookie is issued with, so
     * even on its own it would not address that cookie.
     */
    lemma ClearCookieScopeDiffers(token: string)
      ensures ClearCookie().name == RenewedCookie(token).name
      ensures ClearCookie().domain != RenewedCookie(token).domain && ClearCookie().path != RenewedCookie(token).path
    {
    }

    /**
     * Renewal keeps the principal: when reading a token's claims gives back
     * the claims it was created from, the re-issued access token carries the
     * refresh token's user id, user name and role.
     */
    lemma RenewalPreservesClaims(request: Request)
      requires forall dto, t :: jwtTokenProvider.tokenInfo(jwtTokenProvider.create(dto, t)) == dto
      ensures var renewed := jwtTokenProvider.tokenInfo(ReissuedToken(request));
        var original := jwtTokenProvider.tokenInfo(RefreshTokenOf(request));
        renewed.userId == original.userId && renewed.userName == original.userName && renewed.role == original.role
    {
    }

    /**
     * The renewal step of doFilterInternal, once the refresh token is valid:
     * its claims are read, an access token is created from them, written as
     * the one Set-Cookie (the clearing cookie written first is overwritten)
     * and its principal is published.
     */
    method ReissueAccessToken(request: Request, refreshToken: string, response: HttpResponse, context: SecurityContext)
      requires refreshToken == RefreshTokenOf(request)
      modifies jwtTokenProvider, response, context
      ensures jwtTokenProvider.calls == old(jwtTokenProvider.calls)
        + [TokenInfoRead(refreshToken)] + [Created(jwtTokenProvider.tokenInfo(refreshToken), AccessToken)]
        + [AuthenticationRead(ReissuedToken(request))]
      ensures response.headers == WithHeaderSet(old(response.headers), SetCookie, CookieText(RenewedCookie(ReissuedToken(request))))
      ensures ValuesNamed(response.headers, SetCookie) == [CookieText(RenewedCookie(ReissuedToken(request)))]
      ensures context.authentication == jwtTokenProvider.authenticationOf(ReissuedToken(request))
    {
      var dto := jwtTokenProvider.GetTokenInfo(refreshToken);
      var reAccessToken := jwtTokenProvider.CreateToken(dto, AccessToken);

      // meant to delete an existing access cookie ...
      var cookie := ClearCookie();
      ghost var before := response.headers;
      response.SetHeader(SetCookie, CookieText(cookie));
      // ... but the second setHeader of the same name discards it
      cookie := RenewedCookie(reAccessToken);
      response.SetHeader(SetCookie, CookieText(cookie));
      SetHeaderTwice(before, SetCookie, CookieText(ClearCookie()), CookieText(cookie));

      var authentication := jwtTokenProvider.GetAuthentication(reAccessToken);
      context.SetAuthentication(authentication);
    }

    /**
     * The refresh step of doFilterInternal, for an expired or denied access
     * token: the refresh token is read and validated, and only a valid one
     * leads to a re-issued access token.
     */
    method CheckRefreshToken(request: Request, response: HttpResponse, context: SecurityContext)
      modifies jwtTokenProvider, response, context
      ensures RefreshStatus(request) == Access ==>
        var ref := RefreshTokenOf(request);
        var reissued := ReissuedToken(request);
        jwtTokenProvider.calls == old(jwtTokenProvider.calls) + [Resolved(RefreshToken)] + [Validated(ref)]
          + [TokenInfoRead(ref)] + [Created(jwtTokenProvider.tokenInfo(ref), AccessToken)] + [AuthenticationRead(reissued)] &&
        response.headers == WithHeaderSet(old(response.headers), SetCookie, CookieText(RenewedCookie(reissued))) &&
        ValuesNamed(response.headers, SetCookie) == [CookieText(RenewedCookie(reissued))] &&
        context.authentication == jwtTokenProvider.authenticationOf(reissued)
      ensures RefreshStatus(request) != Access ==>
        OnlyCalled(old(jwtTokenProvider.calls) + [Resolved(RefreshToken)] + [Validated(RefreshTokenOf(request))], response, context)
    {
      var resolvedRefresh := jwtTokenProvider.ResolveToken(request, RefreshToken);
      var refreshToken := Nvl(resolvedRefresh);
      var refreshTokenStatus := jwtTokenProvider.ValidateToken(refreshToken);

      if refreshTokenStatus == Access {
        ReissueAccessToken(request, refreshToken, response, context);
      } else if refreshTokenStatus == Expired {
        // refresh token expired: only logged
      } else {
        // refresh token rejected: only logged
      }
    }

    /** doFilterInternal. */
    method DoFilterInternal(request: Request, response: HttpResponse, chain: FilterChain, context: SecurityContext)
      modifies jwtTokenProvider, response, chain, context
      ensures InternalEffect(request, response, chain, context)
    {
      var resolved := jwtTokenProvider.ResolveToken(request, AccessToken);
      var accessToken := Nvl(resolved);
      var accessTokenStatus := jwtTokenProvider.ValidateToken(accessToken);

      if accessTokenStatus == Access {
        var authentication := jwtTokenProvider.GetAuthentication(accessToken);
        context.SetAuthentication(authentication);
      } else if accessTokenStatus == Expired || accessTokenStatus == Denied {
        CheckRefreshToken(request, response, context);
      }

      chain.DoFilter(request);
    }

    /**
     * OncePerRequestFilter.doFilter: a request shouldNotFilter accepts goes
     * straight on, untouched; any other runs doFilterInternal.
     */
    method DoFilter(request: Request, response: HttpResponse, chain: FilterChain, context: SecurityContext)
      modifies jwtTokenProvider, response, chain, context
      ensures ShouldNotFilter(request) ==>
        chain.passed == old(chain.passed) + [request] &&
        jwtTokenProvider.calls == old(jwtTokenProvider.calls) &&
        response.headers == old(response.headers) &&
        context.authentication == old(context.authentication)
      ensures !ShouldNotFilter(request) ==> InternalEffect(request, response, chain, context)
    {
      if ShouldNotFilter(request) {
        chain.DoFilter(request);
      } else {
        DoFilterInternal(request, response, chain, context);
      }
    }
  }
}
