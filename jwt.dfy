/**
 * The token provider's interface. Its implementation (signing, verification,
 * the clock, claim decoding, cookie lookup) is not part of this model: each
 * operation is an uninterpreted function fixed when the provider is built.
 * The provider also records the calls made to it, so that the order in which
 * the filter consults it can be stated.
 */
module Jwt {
  import opened Wrappers
  import opened Servlet
  import opened SpringSecurity

  /**
   * JwtStatus: ACCESS, EXPIRED, DENIED; OtherStatus stands for any further
   * constant or a null result, which the callers treat as none of the three.
   */
  datatype JwtStatus = Access | Expired | Denied | OtherStatus

  /** JwtTokenType: ACCESS_TOKEN or REFRESH_TOKEN. */
  datatype JwtTokenType = AccessToken | RefreshToken

  /** TokenDTO: the claims read from or written into a token; any field may be null. */
  datatype TokenDTO = TokenDTO(userId: Option<string>, userName: Option<string>, role: Option<string>)

  /** One call made to the provider, with its arguments. */
  datatype ProviderCall =
    | Resolved(tokenType: JwtTokenType)
    | Validated(token: string)
    | AuthenticationRead(token: string)
    | TokenInfoRead(token: string)
    | Created(dto: TokenDTO, tokenType: JwtTokenType)

  class JwtTokenProvider {
    /** resolveToken: the token of the given type carried by the request, or null. */
    const resolve: (Request, JwtTokenType) -> Option<string>
    /** validateToken */
    const validate: string -> JwtStatus
    /** getAuthentication: the principal a token carries, or null. */
    const authenticationOf: string -> Option<Authentication>
    /** getTokenInfo */
    const tokenInfo: string -> TokenDTO
    /** createToken */
    const create: (TokenDTO, JwtTokenType) -> string

    /** Every call made so far, oldest first. */
    var calls: seq<ProviderCall>

    constructor (
      resolve: (Request, JwtTokenType) -> Option<string>,
      validate: string -> JwtStatus,
      authenticationOf: string -> Option<Authentication>,
      tokenInfo: string -> TokenDTO,
      create: (TokenDTO, JwtTokenType) -> string)
      ensures this.resolve == resolve && this.validate == validate
      ensures this.authenticationOf == authenticationOf
      ensures this.tokenInfo == tokenInfo && this.create == create
      ensures calls == []
    {
      this.resolve := resolve;
      this.validate := validate;
      this.authenticationOf := authenticationOf;
      this.tokenInfo := tokenInfo;
      this.create := create;
      calls := [];
    }

    method ResolveToken(request: Request, tokenType: JwtTokenType) returns (token: Option<string>)
      modifies this
      ensures token == resolve(request, tokenType)
      ensures calls == old(calls) + [Resolved(tokenType)]
    {
      token := resolve(request, tokenType);
      calls := calls + [Resolved(tokenType)];
    }

    method ValidateToken(token: string) returns (status: JwtStatus)
      modifies this
      ensures status == validate(token)
      ensures calls == old(calls) + [Validated(token)]
    {
      status := validate(token);
      calls := calls + [Validated(token)];
    }

    method GetAuthentication(token: string) returns (a: Option<Authentication>)
      modifies this
      ensures a == authenticationOf(token)
      ensures calls == old(calls) + [AuthenticationRead(token)]
    {
      a := authenticationOf(token);
      calls := calls + [AuthenticationRead(token)];
    }

    method GetTokenInfo(token: string) returns (dto: TokenDTO)
      modifies this
      ensures dto == tokenInfo(token)
      ensures calls == old(calls) + [TokenInfoRead(token)]
    {
      dto := tokenInfo(token);
      calls := calls + [TokenInfoRead(token)];
    }

    method CreateToken(dto: TokenDTO, tokenType: JwtTokenType) returns (token: string)
      modifies this
      ensures token == create(dto, tokenType)
      ensures calls == old(calls) + [Created(dto, tokenType)]
    {
      token := create(dto, tokenType);
      calls := calls + [Created(dto, tokenType)];
    }
  }
}
