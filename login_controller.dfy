/**
 * LoginController: after a successful form login it issues an access and a
 * refresh token as cookies; it reports login failure; and it reads the user
 * information back out of the access token.
 */
module Login {
  import opened Wrappers
  import opened CmmUtil
  import opened Servlet
  import opened Jwt
  import opened JwtFilter

  /** UserInfoDTO, reduced to the three fields this controller reads and writes; any may be null. */
  datatype UserInfoDTO = UserInfoDTO(userId: Option<string>, userName: Option<string>, roles: Option<string>)

  /** AuthInfo: the authenticated principal; its user information may be null. */
  datatype AuthInfo = AuthInfo(userInfoDTO: Option<UserInfoDTO>)

  /** MsgDTO: a result code and a message. */
  datatype MsgDTO = MsgDTO(result: int, msg: string)

  const LoginSuccessSuffix := "님 로그인이 성공하였습니다."
  const LoginFailMessage := "로그인이 실패하였습니다."

  /** The user information of the principal; a missing one is the empty builder result (all fields null). */
  function UserInfoOf(authInfo: AuthInfo): (u: UserInfoDTO)
    ensures authInfo.userInfoDTO.Some? ==> u == authInfo.userInfoDTO.value
    ensures authInfo.userInfoDTO.None? ==> u.userId.None? && u.userName.None? && u.roles.None?
  {
    authInfo.userInfoDTO.GetOr(UserInfoDTO(None, None, None))
  }

  /**
   * The TokenDTO both tokens are created from: the principal's user id,
   * user name and roles, each null replaced by "".
   */
  function TokenFor(authInfo: AuthInfo): (t: TokenDTO)
    ensures t.userId.Some? && t.userName.Some? && t.role.Some?
    ensures authInfo.userInfoDTO.None? ==> t == TokenDTO(Some(""), Some(""), Some(""))
    ensures authInfo.userInfoDTO.Some? ==>
      var u := authInfo.userInfoDTO.value;
      (u.userId.Some? ==> t.userId == u.userId) && (u.userId.None? ==> t.userId == Some("")) &&
      (u.userName.Some? ==> t.userName == u.userName) && (u.userName.None? ==> t.userName == Some("")) &&
      (u.roles.Some? ==> t.role == u.roles) && (u.roles.None? ==> t.role == Some(""))
  {
    var u := UserInfoOf(authInfo);
    TokenDTO(Some(Nvl(u.userId)), Some(Nvl(u.userName)), Some(Nvl(u.roles)))
  }

  class LoginController {
    const accessTokenValidTime: int
    const accessTokenName: string
    const refreshTokenValidTime: int
    const refreshTokenName: string
    const jwtTokenProvider: JwtTokenProvider

    constructor (accessTokenValidTime: int, accessTokenName: string,
                 refreshTokenValidTime: int, refreshTokenName: string,
                 jwtTokenProvider: JwtTokenProvider)
      ensures this.accessTokenValidTime == accessTokenValidTime && this.accessTokenName == accessTokenName
      ensures this.refreshTokenValidTime == refreshTokenValidTime && this.refreshTokenName == refreshTokenName
      ensures this.jwtTokenProvider == jwtTokenProvider
    {
      this.accessTokenValidTime := accessTokenValidTime;
      this.accessTokenName := accessTokenName;
      this.refreshTokenValidTime := refreshTokenValidTime;
      this.refreshTokenName := refreshTokenName;
      this.jwtTokenProvider := jwtTokenProvider;
    }

    /** A token cookie: domain localhost, path "/", httpOnly, living `maxAge` seconds. */
    static function TokenCookie(name: string, token: string, maxAge: int): (c: ResponseCookie)
      ensures c.name == name && c.value == token && c.maxAge == maxAge
      ensures c.domain == Some("localhost") && c.path == Some("/") && c.httpOnly
    {
      ResponseCookie(name, token, maxAge, Some("localhost"), Some("/"), true)
    }

    /** The access cookie: accessTokenName, living accessTokenValidTime seconds. */
    function AccessCookie(token: string): (c: ResponseCookie)
      ensures c.name == accessTokenName && c.value == token && c.maxAge == accessTokenValidTime
      ensures c.domain == Some("localhost") && c.path == Some("/") && c.httpOnly
    {
      TokenCookie(accessTokenName, token, accessTokenValidTime)
    }

    /** The refresh cookie: refreshTokenName, living refreshTokenValidTime seconds. */
    function RefreshCookie(token: string): (c: ResponseCookie)
      ensures c.name == refreshTokenName && c.value == token && c.maxAge == refreshTokenValidTime
      ensures c.domain == Some("localhost") && c.path == Some("/") && c.httpOnly
    {
      TokenCookie(refreshTokenName, token, refreshTokenValidTime)
    }

    /**
     * loginSuccess: creates an access and then a refresh token from the same
     * claims; the response is left with exactly two Set-Cookie headers, the
     * access cookie then the refresh cookie, every earlier Set-Cookie gone and
     * every other header kept.
     */
    method LoginSuccess(authInfo: AuthInfo, response: HttpResponse) returns (dto: MsgDTO)
      modifies jwtTokenProvider, response
      ensures var t := TokenFor(authInfo);
        jwtTokenProvider.calls == old(jwtTokenProvider.calls) + [Created(t, AccessToken)] + [Created(t, RefreshToken)]
      ensures var t := TokenFor(authInfo);
        var access := CookieText(AccessCookie(jwtTokenProvider.create(t, AccessToken)));
        var refresh := CookieText(RefreshCookie(jwtTokenProvider.create(t, RefreshToken)));
        response.headers == WithHeaderSet(old(response.headers), SetCookie, access) + [Header(SetCookie, refresh)] &&
        ValuesNamed(response.headers, SetCookie) == [access, refresh] &&
        (forall other :: other != SetCookie ==> ValuesNamed(response.headers, other) == ValuesNamed(old(response.headers), other))
      ensures dto == MsgDTO(1, Nvl(UserInfoOf(authInfo).userName) + LoginSuccessSuffix)
    {
      var rDTO := UserInfoOf(authInfo);
      var userId := Nvl(rDTO.userId);
      var userName := Nvl(rDTO.userName);
      var userRoles := Nvl(rDTO.roles);

      var tDTO := TokenDTO(Some(userId), Some(userName), Some(userRoles));
      assert tDTO == TokenFor(authInfo);
      var accessToken := jwtTokenProvider.CreateToken(tDTO, AccessToken);
      var cookie := AccessCookie(accessToken);
      response.SetHeader(SetCookie, CookieText(cookie));
      ghost var afterSet := response.headers;
      assert ValuesNamed(afterSet, SetCookie) == [CookieText(AccessCookie(accessToken))];

      tDTO := TokenDTO(Some(userId), Some(userName), Some(userRoles));
      var refreshToken := jwtTokenProvider.CreateToken(tDTO, RefreshToken);
      cookie := RefreshCookie(refreshToken);
      response.AddHeader(SetCookie, CookieText(cookie));
      AddHeaderAppends(afterSet, SetCookie, CookieText(cookie));

      dto := MsgDTO(1, userName + LoginSuccessSuffix);
    }

    /** loginFail: result 1 and the fixed failure message. */
    function LoginFail(): (dto: MsgDTO)
      ensures dto.result == 1 && dto.msg == LoginFailMessage
    {
      MsgDTO(1, LoginFailMessage)
    }

    /**
     * The user information loginInfo answers: none for a missing access token
     * (null or ""), otherwise the token's user id, user name and role,
     * whatever the token's status.
     */
    function LoginInfoOf(request: Request): (r: UserInfoDTO)
      ensures var token := Nvl(jwtTokenProvider.resolve(request, AccessToken));
        (token == "" ==> r == UserInfoDTO(Some(""), Some(""), Some(""))) &&
        (token != "" ==>
          var info := jwtTokenProvider.tokenInfo(token);
          r.userId == info.userId && r.userName == info.userName && r.roles == info.role)
    {
      var accessToken := Nvl(jwtTokenProvider.resolve(request, AccessToken));
      if accessToken == "" then
        UserInfoDTO(Some(""), Some(""), Some(""))
      else
        var tokenDTO := jwtTokenProvider.tokenInfo(accessToken);
        UserInfoDTO(tokenDTO.userId, tokenDTO.userName, tokenDTO.role)
    }

    /**
     * loginInfo: resolves the access token, reads its claims only when it is
     * not empty, and answers LoginInfoOf.
     */
    method LoginInfo(request: Request) returns (dto: UserInfoDTO)
      modifies jwtTokenProvider
      ensures dto == LoginInfoOf(request)
      ensures var token := Nvl(jwtTokenProvider.resolve(request, AccessToken));
        jwtTokenProvider.calls == old(jwtTokenProvider.calls) + [Resolved(AccessToken)]
          + (if token == "" then [] else [TokenInfoRead(token)])
    {
      var resolved := jwtTokenProvider.ResolveToken(request, AccessToken);
      var accessToken := Nvl(resolved);

      if accessToken == "" {
        dto := UserInfoDTO(Some(""), Some(""), Some(""));
      } else {
        var tokenDTO := jwtTokenProvider.GetTokenInfo(accessToken);
        dto := UserInfoDTO(tokenDTO.userId, tokenDTO.userName, tokenDTO.role);
      }
    }

    /**
     * A filter configured with the same access-token name and lifetime
     * re-issues exactly the cookie loginSuccess issues for the same token.
     */
    lemma RenewedCookieIsLoginCookie(filter: JwtAuthenticationFilter, token: string)
      requires filter.accessTokenName == accessTokenName && filter.accessTokenValidTime == accessTokenValidTime
      ensures filter.RenewedCookie(token) == AccessCookie(token)
    {
    }

    /**
     * Login round trip: a request that carries the access token loginSuccess
     * issued reads back, through loginInfo, the principal's user id, name and
     * roles (nulls as ""), provided reading a token's claims gives back the
     * claims it was created from.
     */
    lemma LoginInfoAfterLoginSuccess(authInfo: AuthInfo, request: Request)
      requires forall dto, t :: jwtTokenProvider.tokenInfo(jwtTokenProvider.create(dto, t)) == dto
      requires jwtTokenProvider.resolve(request, AccessToken) == Some(jwtTokenProvider.create(TokenFor(authInfo), AccessToken))
      requires jwtTokenProvider.create(TokenFor(authInfo), AccessToken) != ""
      ensures var u := UserInfoOf(authInfo);
        LoginInfoOf(request) == UserInfoDTO(Some(Nvl(u.userId)), Some(Nvl(u.userName)), Some(Nvl(u.roles)))
    {
    }
  }

}
