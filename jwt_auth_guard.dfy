/** `JwtAuthGuard`: reads the `authorization` header, takes the token after
    the first space, has it verified, and attaches the verified claims to the
    request or rejects the request with 401. */
module JwtAuthGuard {
  import opened Wrappers
  import opened Text
  import opened Domain
  import opened Exceptions
  import opened Http

  const AuthorizationHeader := "authorization"
  const MissingHeaderMessage := "Authorization header missing"
  const InvalidTokenMessage := "Invalid or expired token"

  /** `authorization.split(' ')[1]`: the second space-separated piece, or
      `undefined` when there is none. */
  function BearerToken(authorization: string): (token: Option<string>)
    ensures token.Some? ==> ' ' !in token.value
  {
    var parts := Split(authorization, ' ');
    if |parts| > 1 then Some(parts[1]) else None
  }

  /** The token is what follows the first word and its space. */
  lemma BearerTokenAfterScheme(scheme: string, token: string)
    requires ' ' !in scheme && ' ' !in token
    ensures BearerToken(scheme + " " + token) == Some(token)
  {
    SplitAfterWord(scheme, token, ' ');
  }

  /** The first word is not looked at: `Bearer x`, `Basic x` and `x x` give the same token. */
  lemma SchemeNotChecked(scheme1: string, scheme2: string, rest: string)
    requires ' ' !in scheme1 && ' ' !in scheme2
    ensures BearerToken(scheme1 + " " + rest) == BearerToken(scheme2 + " " + rest)
  {
    SplitAfterWord(scheme1, rest, ' ');
    SplitAfterWord(scheme2, rest, ' ');
  }

  /** A header without a space has no token. */
  lemma NoSpaceNoToken(authorization: string)
    requires ' ' !in authorization
    ensures BearerToken(authorization) == None
  {
  }

  /** The guard's decision for a header value and a verifier (signature and
      expiry checking, which the model leaves abstract; a missing token is
      rejected without being verified). */
  function Authenticate(authorization: Option<string>, verify: string -> Option<Claims>): (r: Outcome<Claims>)
    ensures r == Raised(Unauthorized(MissingHeaderMessage)) <==> authorization.None? || authorization.value == ""
    ensures r.Raised? ==> r.exception in {Unauthorized(MissingHeaderMessage), Unauthorized(InvalidTokenMessage)}
    ensures r.Returned? <==>
      && authorization.Some? && authorization.value != ""
      && BearerToken(authorization.value).Some?
      && verify(BearerToken(authorization.value).value).Some?
    ensures r.Returned? ==> Some(r.value) == verify(BearerToken(authorization.value).value)
  {
    if authorization.None? || authorization.value == "" then Raised(Unauthorized(MissingHeaderMessage))
    else
      match BearerToken(authorization.value)
      case None => Raised(Unauthorized(InvalidTokenMessage))
      case Some(token) =>
        match verify(token)
        case None => Raised(Unauthorized(InvalidTokenMessage))
        case Some(claims) => Returned(claims)
  }

  /** A header that is present but yields no verified claims is answered with
      the one fixed "invalid or expired" message, whatever went wrong. */
  lemma PresentHeaderFailureIsInvalidToken(authorization: string, verify: string -> Option<Claims>)
    requires authorization != ""
    requires Authenticate(Some(authorization), verify).Raised?
    ensures Authenticate(Some(authorization), verify) == Raised(Unauthorized(InvalidTokenMessage))
  {
  }

  class JwtAuthGuard {
    /** `jwtService.verifyAsync`, left abstract. */
    const verify: string -> Option<Claims>

    constructor (verify: string -> Option<Claims>)
      ensures this.verify == verify
    {
      this.verify := verify;
    }

    /** `canActivate`: `true` with `request.user` set to exactly the verified
        claims, or the 401 of `Authenticate` with the request left as it was. */
    method CanActivate(request: Request) returns (r: Outcome<bool>)
      modifies request
      ensures var a := Authenticate(old(request.Header(AuthorizationHeader)), verify);
        && (a.Returned? ==> r == Returned(true) && request.user == Some(a.value))
        && (a.Raised? ==> r == Raised(a.exception) && request.user == old(request.user))
      ensures request.headers == old(request.headers) && request.url == old(request.url)
    {
      var authorization := request.Header(AuthorizationHeader);
      if authorization.None? || authorization.value == "" {
        return Raised(Unauthorized(MissingHeaderMessage));
      }
      var token := BearerToken(authorization.value);
      if token.None? {
        return Raised(Unauthorized(InvalidTokenMessage));
      }
      var user := verify(token.value);
      if user.None? {
        return Raised(Unauthorized(InvalidTokenMessage));
      }
      request.user := user;
      return Returned(true);
    }
  }
}
