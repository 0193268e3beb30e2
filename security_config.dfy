/**
 * SecurityConfig: the authorisation rules (first match decides, anything
 * else is permitted), the form-login and logout URLs, and where the JWT
 * filter sits in the request pipeline.
 */
module Config {
  import opened Wrappers
  import opened CmmUtil
  import opened Servlet
  import opened SpringSecurity
  import opened Jwt
  import opened JwtFilter

  /** What a rule demands of the request's authentication (None = anonymous). */
  datatype Requirement = HasAnyAuthority(authorities: seq<string>) | Authenticated | PermitAll

  // requestMatchers(base + "/**") followed by its requirement.
  datatype Rule = Rule(base: string, requirement: Requirement)

  datatype Decision = Permit | Deny

  /** The rules in declaration order; anyRequest().permitAll() after them. */
  const Rules: seq<Rule> := [
    Rule("/notice/v1", HasAnyAuthority(["ROLE_USER"])),
    Rule("/user/v1", Authenticated),
    Rule("/html/user", Authenticated),
    Rule("/admin", HasAnyAuthority(["ROLE_ADMIN"]))
  ]
  const AnyRequest := PermitAll

  const LoginPage := "/html/ss/login.html"
  const LoginProcessingUrl := "/login/v1/loginProc"
  const SuccessForwardUrl := "/login/v1/loginSuccess"
  const FailureForwardUrl := "/login/v1/loginFail"
  const LogoutUrl := "/user/v1/logout"
  // With CSRF protection disabled, Spring's logout matcher accepts the logout URL under these methods only.
  const LogoutMethods := {"GET", "POST", "PUT", "DELETE"}
  const LogoutSuccessUrl := "/html/index.html"

  // The Ant pattern base + "/**": the base path itself or anything below it.
  function Under(base: string, path: string): (r: bool)
    ensures r <==> base <= path && (|path| == |base| || path[|base|] == '/')
  {
    path == base || base + "/" <= path
  }

  /** The index of the first rule matching `path`, if any. */
  function FirstMatch(rules: seq<Rule>, path: string): (r: Option<nat>)
    ensures r.Some? ==> r.value < |rules| && Under(rules[r.value].base, path)
    ensures r.Some? ==> forall j :: 0 <= j < r.value ==> !Under(rules[j].base, path)
    ensures r.None? ==> forall j :: 0 <= j < |rules| ==> !Under(rules[j].base, path)
  {
    if rules == [] then None
    else if Under(rules[0].base, path) then Some(0)
    else match FirstMatch(rules[1..], path)
      case None => None
      case Some(k) => Some(k + 1)
  }

  /**
   * Whether an authentication meets a requirement: hasAnyAuthority wants a
   * principal holding one of the listed authorities, authenticated() any
   * principal, permitAll() nothing.
   */
  function Satisfies(requirement: Requirement, auth: Option<Authentication>): (ok: bool)
    ensures requirement.PermitAll? ==> ok
    ensures auth.None? ==> (ok <==> requirement.PermitAll?)
    ensures auth.Some? && requirement.Authenticated? ==> ok
    ensures requirement.HasAnyAuthority? ==>
      (ok <==> auth.Some? && exists a :: a in requirement.authorities && a in auth.value.authorities)
  {
    match requirement
    case HasAnyAuthority(wanted) => auth.Some? && exists a :: a in wanted && a in auth.value.authorities
    case Authenticated => auth.Some?
    case PermitAll => true
  }

  /** The requirement that decides `path`: the first matching rule's, else anyRequest's. */
  function RequirementFor(path: string): (q: Requirement)
    ensures FirstMatch(Rules, path).Some? ==> q == Rules[FirstMatch(Rules, path).value].requirement
    ensures q.PermitAll? <==> FirstMatch(Rules, path).None?
  {
    match FirstMatch(Rules, path)
    case Some(k) => Rules[k].requirement
    case None => AnyRequest
  }

  /**
   * The authorisation decision for a request to `path`: the first matching
   * rule decides, a path no rule matches is permitted, and an anonymous
   * request is refused exactly where some rule matches.
   */
  function Authorize(path: string, auth: Option<Authentication>): (d: Decision)
    ensures FirstMatch(Rules, path).Some? ==>
      (d == Permit <==> Satisfies(Rules[FirstMatch(Rules, path).value].requirement, auth))
    ensures FirstMatch(Rules, path).None? ==> d == Permit
    ensures auth.None? ==> (d == Permit <==> forall k :: 0 <= k < |Rules| ==> !Under(Rules[k].base, path))
  {
    if Satisfies(RequirementFor(path), auth) then Permit else Deny
  }

  /** Holding more authorities never loses access to a requirement. */
  lemma SatisfiesMonotone(requirement: Requirement, auth: Option<Authentication>, more: Option<Authentication>)
    requires auth.Some? && more.Some?
    requires forall a :: a in auth.value.authorities ==> a in more.value.authorities
    ensures Satisfies(requirement, auth) ==> Satisfies(requirement, more)
  {
  }

  /** Holding more authorities never loses access to a path; being authenticated never loses access either. */
  lemma AuthorizeMonotone(path: string, auth: Option<Authentication>, more: Option<Authentication>)
    requires more.Some?
    requires auth.Some? ==> forall a :: a in auth.value.authorities ==> a in more.value.authorities
    ensures Authorize(path, auth) == Permit ==> Authorize(path, more) == Permit
  {
    if auth.Some? {
      SatisfiesMonotone(RequirementFor(path), auth, more);
    }
  }

  /** Under a base starting "/" + c, a path's second character is c. */
  lemma SecondChar(base: string, path: string)
    requires |base| >= 2 && Under(base, path)
    ensures |path| >= 2 && path[1] == base[1]
  {
  }

  /** The first rule that matches decides: FirstMatch is rule `k` when `k` matches and no earlier rule does. */
  lemma FirstMatchAt(rules: seq<Rule>, path: string, k: nat)
    requires k < |rules| && Under(rules[k].base, path)
    requires forall j :: 0 <= j < k ==> !Under(rules[j].base, path)
    ensures FirstMatch(rules, path) == Some(k)
  {
  }

  // "/notice/v1/**" is open exactly to principals holding ROLE_USER.
  lemma NoticeNeedsRoleUser(path: string, auth: Option<Authentication>)
    requires Under("/notice/v1", path)
    ensures Authorize(path, auth) == Permit <==> auth.Some? && "ROLE_USER" in auth.value.authorities
  {
  }

  // "/user/v1/**" and "/html/user/**" are open to any authenticated principal and to no anonymous request.
  lemma UserPagesNeedAuthentication(path: string, auth: Option<Authentication>)
    requires Under("/user/v1", path) || Under("/html/user", path)
    ensures Authorize(path, auth) == Permit <==> auth.Some?
  {
    if Under("/user/v1", path) {
      SecondChar("/user/v1", path);
      assert !Under(Rules[0].base, path);
      FirstMatchAt(Rules, path, 1);
    } else {
      SecondChar("/html/user", path);
      assert !Under(Rules[0].base, path);
      FirstMatchAt(Rules, path, 2);
    }
  }

  // "/admin/**" is open exactly to principals holding ROLE_ADMIN.
  lemma AdminNeedsRoleAdmin(path: string, auth: Option<Authentication>)
    requires Under("/admin", path)
    ensures Authorize(path, auth) == Permit <==> auth.Some? && "ROLE_ADMIN" in auth.value.authorities
  {
    SecondChar("/admin", path);
    assert !Under(Rules[0].base, path) && !Under(Rules[1].base, path) && !Under(Rules[2].base, path);
    FirstMatchAt(Rules, path, 3);
  }

  /** A path no rule matches is permitted, authenticated or not. */
  lemma OtherPathsPermitted(path: string, auth: Option<Authentication>)
    requires forall k :: 0 <= k < |Rules| ==> !Under(Rules[k].base, path)
    ensures Authorize(path, auth) == Permit
  {
  }

  /** The filter's exclusion test holds for every login and logout-success URL configured here. */
  lemma ConfiguredUrlsSkipFilter(request: Request)
    requires request.servletPath in
      {Some(LoginPage), Some(LoginProcessingUrl), Some(SuccessForwardUrl), Some(FailureForwardUrl), Some(LogoutSuccessUrl)}
    ensures ShouldNotFilter(request)
  {
    var path := request.servletPath.value;
    if path == LoginPage {
      assert OccursAt(path, "/html/ss/", 0);
    } else if path == LogoutSuccessUrl {
      assert OccursAt(path, "/html/index.html", 0);
    } else {
      assert OccursAt(path, "/login/v1/", 0);
    }
  }

  /** The logout URL contains none of the excluded fragments. */
  lemma LogoutUrlLacksFragments()
    ensures !Contains(LogoutUrl, "/css/") && !Contains(LogoutUrl, "/js/")
    ensures !Contains(LogoutUrl, "/html/index.html") && !Contains(LogoutUrl, "/html/ss/")
    ensures !Contains(LogoutUrl, "/login/v1/") && !Contains(LogoutUrl, "/reg/v1")
    ensures !Contains(LogoutUrl, "/favicon.ico")
  {
    var s := "/user/v1/logout";
    assert s == LogoutUrl;
    // each '/' of the logout URL is followed by 'u', 'v' or 'l'
    assert forall i | 0 <= i < |s| - 1 && s[i] == '/' :: s[i + 1] in "uvl";
    SlashNotFollowedBy(s, "uvl", "/css/");
    SlashNotFollowedBy(s, "uvl", "/js/");
    SlashNotFollowedBy(s, "uvl", "/html/index.html");
    SlashNotFollowedBy(s, "uvl", "/html/ss/");
    SlashNotFollowedBy(s, "uvl", "/reg/v1");
    SlashNotFollowedBy(s, "uvl", "/favicon.ico");
    LogoutUrlLacksLoginFragment();
  }

  /** The logout URL does not contain the login fragment: it has no 'i'. */
  lemma LogoutUrlLacksLoginFragment()
    ensures !Contains(LogoutUrl, "/login/v1/")
  {
    var s := "/user/v1/logout";
    assert s == LogoutUrl;
    assert forall i | 0 <= i < |s| :: s[i] != 'i';
    AbsentCharNotContained(s, "/login/v1/", 4);
  }

  /** So the JWT filter's exclusion test does not hold for the logout URL. */
  lemma LogoutUrlIsFiltered(request: Request)
    requires request.servletPath == Some(LogoutUrl)
    ensures !ShouldNotFilter(request)
  {
    LogoutUrlLacksFragments();
  }

  /** A request the logout filter handles: the logout URL under one of the accepted methods. */
  function IsLogoutRequest(request: Request): (r: bool)
    ensures r <==> request.servletPath == Some(LogoutUrl) && request.httpMethod in {"GET", "POST", "PUT", "DELETE"}
    ensures r ==> !ShouldNotFilter(request)
  {
    if Nvl(request.servletPath) == LogoutUrl && request.httpMethod in LogoutMethods then
      LogoutUrlIsFiltered(request);
      true
    else
      false
  }

  // A request to the logout URL that is not a logout (say a PATCH) meets the "/user/v1" rule: it needs a principal.
  lemma LogoutUrlNeedsAuthentication(auth: Option<Authentication>)
    ensures Authorize(LogoutUrl, auth) == Permit <==> auth.Some?
  {
    assert "/user/v1" + "/" <= LogoutUrl;
    UserPagesNeedAuthentication(LogoutUrl, auth);
  }

  /** Where a request ends up: redirected after logout, or past authorisation with a decision. */
  datatype Outcome = LoggedOut(redirect: string) | Decided(decision: Decision)

  class SecurityConfig {
    const accessTokenName: string
    const refreshTokenName: string
    const jwtAuthenticationFilter: JwtAuthenticationFilter

    constructor (accessTokenName: string, refreshTokenName: string, jwtAuthenticationFilter: JwtAuthenticationFilter)
      ensures this.accessTokenName == accessTokenName && this.refreshTokenName == refreshTokenName
      ensures this.jwtAuthenticationFilter == jwtAuthenticationFilter
    {
      this.accessTokenName := accessTokenName;
      this.refreshTokenName := refreshTokenName;
      this.jwtAuthenticationFilter := jwtAuthenticationFilter;
    }

    /** The cookie deleteCookies writes for `name`: no value, path "/", maxAge 0. */
    static function DeletionCookie(name: string): (c: ResponseCookie)
      ensures c.name == name && c.value == "" && c.maxAge == 0
      ensures c.path == Some("/") && c.domain.None? && !c.httpOnly
    {
      ResponseCookie(name, "", 0, None, Some("/"), false)
    }

    /**
     * Logout at the logout URL: both token cookies are deleted (access, then
     * refresh, appended after whatever the response holds), the
     * authentication is cleared, and the caller is sent to the logout-success
     * page.
     */
    method Logout(response: HttpResponse, context: SecurityContext) returns (redirect: string)
      modifies response, context
      ensures context.authentication == None
      ensures response.headers == old(response.headers)
        + [Header(SetCookie, CookieText(DeletionCookie(accessTokenName))),
           Header(SetCookie, CookieText(DeletionCookie(refreshTokenName)))]
      ensures ValuesNamed(response.headers, SetCookie) == ValuesNamed(old(response.headers), SetCookie)
        + [CookieText(DeletionCookie(accessTokenName)), CookieText(DeletionCookie(refreshTokenName))]
      ensures redirect == LogoutSuccessUrl
    {
      ghost var before := response.headers;
      response.AddHeader(SetCookie, CookieText(DeletionCookie(accessTokenName)));
      AddHeaderAppends(before, SetCookie, CookieText(DeletionCookie(accessTokenName)));
      ghost var middle := response.headers;
      response.AddHeader(SetCookie, CookieText(DeletionCookie(refreshTokenName)));
      AddHeaderAppends(middle, SetCookie, CookieText(DeletionCookie(refreshTokenName)));
      context.SetAuthentication(None);
      redirect := LogoutSuccessUrl;
    }

    /**
     * The configured pipeline for one request: a logout request (the logout
     * URL under GET, POST, PUT or DELETE) is handled first and goes no further; otherwise the JWT filter runs (unless its
     * exclusion test holds) and then the rule table decides on the
     * authentication the filter left in the context.
     */
    method Dispatch(request: Request, response: HttpResponse, chain: FilterChain, context: SecurityContext)
      returns (outcome: Outcome)
      modifies jwtAuthenticationFilter.jwtTokenProvider, response, chain, context
      ensures var path := Nvl(request.servletPath);
        IsLogoutRequest(request) ==>
          outcome == LoggedOut(LogoutSuccessUrl) &&
          context.authentication == None &&
          response.headers == old(response.headers)
            + [Header(SetCookie, CookieText(DeletionCookie(accessTokenName))),
               Header(SetCookie, CookieText(DeletionCookie(refreshTokenName)))] &&
          ValuesNamed(response.headers, SetCookie) == ValuesNamed(old(response.headers), SetCookie)
            + [CookieText(DeletionCookie(accessTokenName)), CookieText(DeletionCookie(refreshTokenName))] &&
          chain.passed == old(chain.passed) &&
          jwtAuthenticationFilter.jwtTokenProvider.calls == old(jwtAuthenticationFilter.jwtTokenProvider.calls)
      ensures var path := Nvl(request.servletPath);
        !IsLogoutRequest(request) ==> outcome == Decided(Authorize(path, context.authentication))
      ensures var path := Nvl(request.servletPath);
        !IsLogoutRequest(request) && ShouldNotFilter(request) ==>
          chain.passed == old(chain.passed) + [request] &&
          jwtAuthenticationFilter.jwtTokenProvider.calls == old(jwtAuthenticationFilter.jwtTokenProvider.calls) &&
          response.headers == old(response.headers) &&
          context.authentication == old(context.authentication)
      ensures var path := Nvl(request.servletPath);
        !IsLogoutRequest(request) && !ShouldNotFilter(request) ==>
          jwtAuthenticationFilter.InternalEffect(request, response, chain, context)
    {
      var path := Nvl(request.servletPath);
      if IsLogoutRequest(request) {
        var redirect := Logout(response, context);
        outcome := LoggedOut(redirect);
      } else {
        jwtAuthenticationFilter.DoFilter(request, response, chain, context);
        outcome := Decided(Authorize(path, context.authentication));
      }
    }
  }
}
