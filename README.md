# Stateless JWT authentication: a Dafny model

This project models how the Spring service authenticates each request. A JWT
access token arrives in a cookie. If it is missing, expired or rejected, a
longer-lived refresh token can be used to re-issue it silently. The model
covers:

- **The per-request filter** (`JwtAuthenticationFilter`).
  - `shouldNotFilter` skips static assets, the landing page and the
    login/registration endpoints. The test is a substring test on the servlet
    path.
  - `doFilterInternal` reads and validates the access token.
    - If the access token is valid, it publishes the token's `Authentication`
      into the request's security context.
    - If the access token is expired or denied, it reads and validates the
      refresh token. When the refresh token is valid, it creates a new access
      token, writes it as a `Set-Cookie` header and publishes its
      `Authentication`.
    - In every case the request goes on down the filter chain exactly once.
- **The login controller** (`LoginController`).
  - After a successful form login, `loginSuccess` creates an access token and
    a refresh token from the principal's claims and sends them as two cookies.
  - `loginFail` reports the failure.
  - `loginInfo` reads the user information back out of the access token.
- **The security configuration** (`SecurityConfig`).
  - The authorisation rules: the first matching path pattern decides, and any
    other path is permitted.
  - The login and logout URLs, and the logout handling: the authentication is
    cleared and both token cookies are deleted. With CSRF protection disabled
    (`SecurityConfig.java:45`), Spring's logout filter accepts the logout URL
    under GET, POST, PUT and DELETE only; under any other method the request
    goes on like any other.
  - Where the JWT filter sits in the request pipeline. `addFilterBefore(…,
    UsernamePasswordAuthenticationFilter.class)` (`SecurityConfig.java:71-72`)
    puts it just before the form-login filter. Spring's `LogoutFilter` comes
    earlier in the chain and does not pass a logout request on, so the JWT
    filter never runs on a logout request, even though its own exclusion test
    does not hold for the logout URL.

The token provider (`JwtTokenProvider`) is not part of this model.
`resolveToken`, `validateToken`, `getAuthentication`, `getTokenInfo` and
`createToken` are uninterpreted functions, fixed when the provider object is
built. `resolveToken` and `getAuthentication` may answer null (`None`), and
a null `validateToken` result is one of the statuses the callers ignore. The
provider keeps a log of the calls made to it, by the filter and by
`loginInfo`. That log tells you, for example, that the refresh token is never
read when the access token is valid.

The response is an ordered list of `(name, value)` headers.

- `setHeader` removes every header with that name, then appends one.
- `addHeader` only appends.

The security context is one mutable slot per request. A cookie is a record
with these fields: name, value, maxAge, domain, path, httpOnly. Java `null` is
`None`. `CmmUtil.nvl` turns `None` into `""`.

Files (one module each): `wrappers.dfy` (`Option`), `cmmutil.dfy` (`nvl`,
`String.contains`), `servlet.dfy` (request, response headers, filter chain),
`spring_security.dfy` (`Authentication`, security context), `jwt.dfy` (token
provider interface), `jwt_filter.dfy`, `login_controller.dfy`,
`security_config.dfy`.

## Behaviour a reader might not expect (the model follows the code)

- **Renewal leaves only the new access cookie.** The comment at
  `src/main/java/kopo/poly/filter/JwtAuthenticationFilter.java:95` says the
  cookie written first (empty value, maxAge 0) deletes an existing access
  token, and the new cookie follows; a reader expects both in the response.
  The code makes both writes with `setHeader("Set-Cookie", …)` (`:96` and
  `:109`), and the second call removes the first. After a renewal, the
  response holds exactly one `Set-Cookie` header: the new access cookie.
  `DoFilterInternal` and `ClearCookieOverwritten` state this outcome. The
  clearing cookie also sets no domain and no path, while the cookie it is meant
  to delete has domain `localhost` and path `/`.
- **`loginSuccess` drops earlier `Set-Cookie` headers, not cookies.** The
  comment at `src/main/java/kopo/poly/controller/LoginController.java:77`
  says the first write removes all existing cookies before storing the access
  token. The write is a `setHeader`: it discards any `Set-Cookie` header written
  earlier in the same response, and does nothing to cookies the browser already
  holds. The second write (`:100`) is an `addHeader`, so both token cookies
  are sent.
- **Statuses other than the three named.** An access status other than
  `ACCESS`, `EXPIRED` or `DENIED` (the model's `OtherStatus`, which also covers
  a null result) causes no action at all.
- **Missing tokens.** A missing token is normalised by `nvl` to `""` before it
  is validated. How `validateToken("")` answers is up to the provider.
- **`loginInfo` does not check the token's status.** It copies the claims of
  any non-empty access token.
- **The token kind is not checked.** The filter passes only the token string
  to `validateToken`, so whether a refresh token is accepted as an access
  token is up to the provider.

## Model

| member | source | states |
|---|---|---|
| `CmmUtil.Nvl` | src/main/java/kopo/poly/controller/LoginController.java:56-58 | `CmmUtil.nvl` as its callers use it: null becomes "", any other string is kept |
| `JwtFilter.ShouldNotFilter` | src/main/java/kopo/poly/filter/JwtAuthenticationFilter.java:144-149 | the request is skipped exactly when its servlet path (null taken as "") contains one of the seven fragments `/css/`, `/js/`, `/html/index.html`, `/html/ss/`, `/login/v1/`, `/reg/v1`, `/favicon.ico`; a null path is never skipped |
| `JwtFilter.JwtAuthenticationFilter.DoFilterInternal` | src/main/java/kopo/poly/filter/JwtAuthenticationFilter.java:39-132 | the request goes down the chain exactly once. Valid access token: its authentication is published, no header changes, and the only provider calls are resolve/validate of the access token and getAuthentication. Expired or denied access token with a valid refresh token: the calls are resolve/validate access, resolve/validate refresh, getTokenInfo(refresh), createToken(that info, ACCESS_TOKEN), getAuthentication(new token). The response's only Set-Cookie is then the new access cookie (name accessTokenName, domain localhost, path /, maxAge accessTokenValidTime, httpOnly), every other header is kept, and the new token's authentication is published. Expired or denied with any other refresh status: only the four resolve/validate calls, no header or context change. Any other access status: only the access resolve/validate, nothing else |
| `JwtFilter.JwtAuthenticationFilter.CheckRefreshToken` | src/main/java/kopo/poly/filter/JwtAuthenticationFilter.java:64-126 | the refresh token is resolved and validated; only when it is valid are its claims read, an access token created from them, written as the only Set-Cookie value (every other header kept) and its authentication published; otherwise nothing but the two refresh calls happens |
| `JwtFilter.JwtAuthenticationFilter.ReissueAccessToken` | src/main/java/kopo/poly/filter/JwtAuthenticationFilter.java:79-116 | the calls are getTokenInfo(refresh), createToken(those claims, ACCESS_TOKEN), getAuthentication(new token); the response's only Set-Cookie value is the renewed cookie and every other header is kept; the new token's authentication is published |
| `JwtFilter.JwtAuthenticationFilter.DoFilter` | src/main/java/kopo/poly/filter/JwtAuthenticationFilter.java:139-156 | a skipped request passes down the chain with no provider call, no header change and no change to the context; any other request gets exactly the effects of doFilterInternal |
| `JwtFilter.JwtAuthenticationFilter.ClearCookie` | src/main/java/kopo/poly/filter/JwtAuthenticationFilter.java:91-93 | the clearing cookie: the access-token name, an empty value, maxAge 0, and no domain, no path, not httpOnly |
| `JwtFilter.JwtAuthenticationFilter.RenewedCookie` | src/main/java/kopo/poly/filter/JwtAuthenticationFilter.java:100-107 | the renewed cookie: the access-token name, the new token, maxAge accessTokenValidTime, domain localhost, path /, httpOnly |
| `JwtFilter.JwtAuthenticationFilter.ClearCookieScopeDiffers` | src/main/java/kopo/poly/filter/JwtAuthenticationFilter.java:91-107 | the clearing cookie has the access cookie's name but neither its domain nor its path |
| `JwtFilter.JwtAuthenticationFilter.ClearCookieOverwritten` | src/main/java/kopo/poly/filter/JwtAuthenticationFilter.java:91-109 | whatever the response held before, the two setHeader calls of the renewal leave exactly one Set-Cookie value, the renewed cookie, and the clearing cookie (maxAge 0) is not among them |
| `JwtFilter.JwtAuthenticationFilter.RenewalPreservesClaims` | src/main/java/kopo/poly/filter/JwtAuthenticationFilter.java:79-88 | if reading a token's claims gives back the claims it was created from, the re-issued access token carries the refresh token's user id, user name and role |
| `Servlet.WithoutName` | src/main/java/kopo/poly/filter/JwtAuthenticationFilter.java:96 | the first half of setHeader: no header with the name is left, every other name keeps its values in order, and exactly the headers with that name are dropped |
| `Servlet.WithHeaderSet` | src/main/java/kopo/poly/filter/JwtAuthenticationFilter.java:109 | after setHeader(name, value) the response has exactly one value for `name`, namely `value`, and every other header name keeps its values |
| `Servlet.SetHeaderTwice` | src/main/java/kopo/poly/filter/JwtAuthenticationFilter.java:96-109 | two setHeader calls with the same name leave the same headers as the second call alone |
| `Servlet.WithoutNameIdempotent` | src/main/java/kopo/poly/filter/JwtAuthenticationFilter.java:109 | removing a header name from headers that no longer have it changes nothing |
| `Servlet.AddHeaderAppends` | src/main/java/kopo/poly/controller/LoginController.java:100 | addHeader(name, value) appends `value` to that name's values and leaves every other name's values alone |
| `Servlet.HttpResponse.SetHeader` | src/main/java/kopo/poly/filter/JwtAuthenticationFilter.java:96 | the header list becomes the old list with that name removed and the new header appended |
| `Servlet.HttpResponse.AddHeader` | src/main/java/kopo/poly/controller/LoginController.java:100 | the header list becomes the old list with the new header appended |
| `Servlet.FilterChain.DoFilter` | src/main/java/kopo/poly/filter/JwtAuthenticationFilter.java:130 | the request is recorded as handed on, once |
| `SpringSecurity.SecurityContext.SetAuthentication` | src/main/java/kopo/poly/filter/JwtAuthenticationFilter.java:62 | the context slot holds exactly the given authentication (None for null) |
| `Jwt.JwtTokenProvider.ResolveToken` | src/main/java/kopo/poly/filter/JwtAuthenticationFilter.java:45 | returns the provider's token (or null) for the request and token type, and logs the call |
| `Jwt.JwtTokenProvider.ValidateToken` | src/main/java/kopo/poly/filter/JwtAuthenticationFilter.java:50 | returns the provider's status for the token and logs the call |
| `Jwt.JwtTokenProvider.GetAuthentication` | src/main/java/kopo/poly/filter/JwtAuthenticationFilter.java:59 | returns the provider's authentication for the token, possibly null (None), and logs the call; the filter publishes it as it is, null included |
| `Jwt.JwtTokenProvider.GetTokenInfo` | src/main/java/kopo/poly/filter/JwtAuthenticationFilter.java:79 | returns the provider's claims for the token and logs the call |
| `Jwt.JwtTokenProvider.CreateToken` | src/main/java/kopo/poly/filter/JwtAuthenticationFilter.java:88 | returns the provider's token for the claims and type and logs the call |
| `Login.TokenFor` | src/main/java/kopo/poly/controller/LoginController.java:54-63 | the claims both tokens are made from are never null: a missing user info gives "" for user id, name and role; a present field is copied, a null one becomes "" |
| `Login.UserInfoOf` | src/main/java/kopo/poly/controller/LoginController.java:54 | the principal's user information, or an all-null one when it is missing |
| `Login.LoginController.TokenCookie` | src/main/java/kopo/poly/controller/LoginController.java:68-75 | a token cookie carries the given name, token and maxAge, with domain localhost, path / and httpOnly |
| `Login.LoginController.AccessCookie` | src/main/java/kopo/poly/controller/LoginController.java:68-75 | the access cookie: accessTokenName, the token, maxAge accessTokenValidTime, domain localhost, path /, httpOnly |
| `Login.LoginController.RefreshCookie` | src/main/java/kopo/poly/controller/LoginController.java:90-97 | the refresh cookie: refreshTokenName, the token, maxAge refreshTokenValidTime, domain localhost, path /, httpOnly |
| `Login.LoginController.RenewedCookieIsLoginCookie` | src/main/java/kopo/poly/filter/JwtAuthenticationFilter.java:100-107 | a filter with the same access-token name and lifetime re-issues exactly the cookie loginSuccess issues for the same token |
| `Login.LoginController.LoginSuccess` | src/main/java/kopo/poly/controller/LoginController.java:47-110 | exactly two tokens are created, from the same claims: first ACCESS_TOKEN, then REFRESH_TOKEN. Every earlier Set-Cookie is gone and exactly two are left, in this order: the access cookie (accessTokenName, accessTokenValidTime) and the refresh cookie (refreshTokenName, refreshTokenValidTime), both with domain localhost, path / and httpOnly. Every other header is kept. The result is 1 with the user name followed by the success suffix |
| `Login.LoginController.LoginFail` | src/main/java/kopo/poly/controller/LoginController.java:112-125 | the result is 1, the same code as a successful login, with the fixed failure message |
| `Login.LoginController.LoginInfoOf` | src/main/java/kopo/poly/controller/LoginController.java:136-150 | no access token (null or "") gives user id, name and roles all ""; otherwise they are the token's user id, name and role, whatever the token's status |
| `Login.LoginController.LoginInfo` | src/main/java/kopo/poly/controller/LoginController.java:130-159 | the answer is `LoginInfoOf`; the access token is resolved (one logged call) and its claims are read (a second call) only when it is not empty |
| `Login.LoginController.LoginInfoAfterLoginSuccess` | src/main/java/kopo/poly/controller/LoginController.java:136-150 | round trip: a request carrying the access token loginSuccess issued reads back through loginInfo the principal's user id, name and roles (nulls as ""), if the provider's claims reading inverts its token creation |
| `Config.Under` | src/main/java/kopo/poly/config/SecurityConfig.java:47-51 | the pattern `base/**` matches a path exactly when `base` is a prefix of it ending at the path's end or at a `/` |
| `Config.RequirementFor` | src/main/java/kopo/poly/config/SecurityConfig.java:46-53 | the requirement of the first matching rule; it is permitAll exactly when no rule matches, since no rule of the table is permitAll |
| `Config.Satisfies` | src/main/java/kopo/poly/config/SecurityConfig.java:47-53 | permitAll admits everyone; an anonymous request meets only permitAll; authenticated() admits any principal; hasAnyAuthority admits a principal holding at least one of the listed authorities |
| `Config.Authorize` | src/main/java/kopo/poly/config/SecurityConfig.java:46-53 | the first matching rule's requirement decides; a path no rule matches is permitted (anyRequest().permitAll()); an anonymous request is refused exactly on the paths some rule matches |
| `Config.SatisfiesMonotone` | src/main/java/kopo/poly/config/SecurityConfig.java:47-53 | a principal holding every authority another holds meets every requirement the other meets |
| `Config.AuthorizeMonotone` | src/main/java/kopo/poly/config/SecurityConfig.java:46-53 | a principal holding every authority of another (or any principal, compared with an anonymous request) is permitted wherever the other is |
| `Config.FirstMatch` | src/main/java/kopo/poly/config/SecurityConfig.java:46-53 | the rule chosen for a path is one that matches with no earlier rule matching; no rule is chosen only when none matches |
| `Config.FirstMatchAt` | src/main/java/kopo/poly/config/SecurityConfig.java:46-53 | declaration order decides: a matching rule preceded only by non-matching rules is the rule chosen |
| `Config.NoticeNeedsRoleUser` | src/main/java/kopo/poly/config/SecurityConfig.java:47 | a path under `/notice/v1/**` is permitted exactly when an authentication holding ROLE_USER is present |
| `Config.UserPagesNeedAuthentication` | src/main/java/kopo/poly/config/SecurityConfig.java:48-49 | a path under `/user/v1/**` or `/html/user/**` is permitted exactly when some authentication is present |
| `Config.AdminNeedsRoleAdmin` | src/main/java/kopo/poly/config/SecurityConfig.java:51 | a path under `/admin/**` is permitted exactly when an authentication holding ROLE_ADMIN is present |
| `Config.OtherPathsPermitted` | src/main/java/kopo/poly/config/SecurityConfig.java:53 | a path that matches no rule is permitted, with or without an authentication |
| `Config.ConfiguredUrlsSkipFilter` | src/main/java/kopo/poly/config/SecurityConfig.java:56-67 | the JWT filter's exclusion test holds for the login page, the login processing URL, the success and failure forwards and the logout-success page |
| `Config.LogoutUrlLacksFragments` | src/main/java/kopo/poly/config/SecurityConfig.java:64 | the logout URL `/user/v1/logout` contains none of the seven excluded fragments |
| `Config.LogoutUrlLacksLoginFragment` | src/main/java/kopo/poly/config/SecurityConfig.java:64 | the logout URL does not contain `/login/v1/` |
| `Config.LogoutUrlIsFiltered` | src/main/java/kopo/poly/config/SecurityConfig.java:64 | the JWT filter's exclusion test does not hold for the logout URL |
| `Config.LogoutUrlNeedsAuthentication` | src/main/java/kopo/poly/config/SecurityConfig.java:48 | a request to the logout URL that reaches authorisation (one that is not a logout) is permitted exactly when some authentication is present |
| `Config.IsLogoutRequest` | src/main/java/kopo/poly/config/SecurityConfig.java:63-64 | a logout is the servlet path `/user/v1/logout` under GET, POST, PUT or DELETE, the methods Spring's logout matcher takes with CSRF disabled (:45); the JWT filter's exclusion test never holds for one |
| `Config.SecurityConfig.DeletionCookie` | src/main/java/kopo/poly/config/SecurityConfig.java:66 | a deleting cookie carries the given name, an empty value, maxAge 0, path /, no domain, not httpOnly |
| `Config.SecurityConfig.Logout` | src/main/java/kopo/poly/config/SecurityConfig.java:63-68 | the authentication is cleared; two deleting cookies (empty value, maxAge 0, path /) are appended, for the access then the refresh cookie name; the caller is sent to `/html/index.html` |
| `Config.SecurityConfig.Dispatch` | src/main/java/kopo/poly/config/SecurityConfig.java:45-75 | a logout request (the logout URL under GET, POST, PUT or DELETE, the methods Spring's logout matcher takes with CSRF disabled) is logged out and goes no further: the authentication is cleared, the two deleting cookies are appended and every earlier header is kept; the JWT filter, the chain and the provider are not reached. Any other request, including the logout URL under another method, runs the JWT filter (skipped requests untouched), and then the rule table decides on the authentication the filter left in the context |

## Left out

- Token cryptography, expiry and claim decoding (`JwtTokenProvider`): not part of this model. Its operations are uninterpreted functions for one fixed instant, and the clock is not modelled.
- Cookie lookup inside `resolveToken`: also not part of this model. The request's cookies are carried but only the provider reads them.
- `ResponseCookie.toString()`: the serialised form, including `Expires`, is left out. A header value holds the cookie record itself.
- The secure and SameSite attributes: they are commented out in the source, so they are not modelled.
- Header names are compared exactly. The servlet API's case-insensitive header names are not modelled.
- Spring's Ant path matching in general: each rule is `base/**` and matches `base` itself or any path below `base/`. Rules and the logout matcher look at the servlet path only; a path-info part is not modelled.
- The response when authorisation fails: the model gives only Permit or Deny. The login-page redirect and the 403 response are framework behaviour.
- Anonymous authentication is modelled as an empty context slot.
- Form-login mechanics: reading and checking the user id and password, BCrypt, the forward to the success or failure URL. Also CSRF disabling and the stateless session policy. All of these are framework plumbing. `loginSuccess` starts from the principal the framework supplies.
- `loginSuccess` with a null `authInfo`: that path ends in a `NullPointerException`, which is not modelled. The principal is always present.
- `UserInfoDTO` keeps only the three fields the controller reads and writes.
- `ResponseEntity`, `CommonResponse` and `HttpStatus` wrapping: framework plumbing. The controller methods return the `MsgDTO` or `UserInfoDTO` inside.
- The logout handler's deleting cookie: it takes its path from the request's context path and its secure flag from the request. The model assumes an empty context path, uses path `/`, and ignores the secure flag.
- `OncePerRequestFilter`'s guard against running twice on one request (the already-filtered request attribute) is not modelled.
- The thread-local `SecurityContextHolder` and concurrency between requests: each request has its own context object.
- Logging (`log.info`): not modelled.
- `CmmUtil` itself is not part of this model; `nvl` is modelled from how the core uses it (null to "").
- Jwt.JwtTokenProvider.GetTokenInfo: the claims are assumed never to be null and the call never to throw. A null `TokenDTO` would end in a `NullPointerException` at `JwtAuthenticationFilter.java:81` (`dto.userId()`) and at `LoginController.java:149` (`tokenDTO.userId()`); that exceptional path is not modelled.
- Jwt.JwtTokenProvider.CreateToken: the created token is assumed never to be null and the call never to throw; the model always has a string to put in the cookie.
- Config.SecurityConfig.Dispatch: the form-login filter is not modelled. A POST to the login processing URL `/login/v1/loginProc` (`SecurityConfig.java:57`) is consumed by that filter and forwarded to the success or failure URL; the model instead runs the JWT filter and the rule table on it like any other request.
- `SpringJwTjdk17Application` is Spring Boot start-up only.
- `Servlet.WithoutName`: it states that each remaining name keeps its values in order, and how many headers are dropped. It does not state the relative order of headers that have different names.
