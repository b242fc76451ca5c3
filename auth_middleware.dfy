/** The authentication middleware of api/middleware/auth.go: the
    `Authorization` header must be `Bearer <token>`, the token must pass
    the verifier, and its claims decide what the request context learns
    about the caller. Token verification (bootstrap/util/jwt_token.go) is
    the function `verifyToken`, given by the caller: it returns the
    token's claims, or None when it reports an error. */
module AuthMiddleware {
  import opened GoValues
  import opened GoStrings

  type Claims = map<string, Value>

  const StatusUnauthorized: int := 401

  /** What the middleware does with a request: abort with a status and a
      message, or set the context keys and call `c.Next`. */
  datatype AuthOutcome =
    | Rejected(status: int, message: string)
    | Accepted(context: map<string, Value>)

  /** `claims[key]`: nil when the claim is absent. */
  function Claim(claims: Claims, key: string): (v: Value)
    ensures key in claims ==> v == claims[key]
    ensures key !in claims ==> v == Nil
  {
    if key in claims then claims[key] else Nil
  }

  /** The token of a `Bearer <token>` header: Some exactly when the header
      is "Bearer", one space and a token holding no space. */
  function BearerToken(header: string): (r: Option<string>)
    ensures r.Some? <==> exists t :: ' ' !in t && header == "Bearer" + [' '] + t
    ensures r.Some? ==> header == "Bearer" + [' '] + r.value && ' ' !in r.value
  {
    var tokenParts := Split(header, ' ');
    SplitTwoPieces(header, "Bearer", ' ');
    if |tokenParts| != 2 || tokenParts[0] != "Bearer" then None else Some(tokenParts[1])
  }

  /** What the type assertions of the middleware demand of verified claims:
      a guest's `guest_id` is a string, and a numeric `user_id` truncates
      to a value a `uint` holds (above -1 and below 2^64). */
  predicate ClaimsAssertable(claims: Claims) {
    && (Claim(claims, "type") == Str("guest") ==> Claim(claims, "guest_id").Str?)
    && (Claim(claims, "user_id").Float64? ==> -1.0 < Claim(claims, "user_id").f < UintModulus as real)
  }

  /** The context keys a verified token's claims set, or why they are
      refused: a guest token sets the user type, name and id; any other
      token needs a numeric `user_id`. */
  function ClaimsOutcome(claims: Claims): (r: AuthOutcome)
    requires ClaimsAssertable(claims)
    ensures r.Accepted? <==> Claim(claims, "type") == Str("guest") || Claim(claims, "user_id").Float64?
    ensures r.Rejected? ==> r == Rejected(StatusUnauthorized, "Invalid token (missing user_id)")
    ensures r.Accepted? ==> "user_type" in r.context
    ensures r.Accepted? && Claim(claims, "type") == Str("guest") ==>
              r.context == map["user_type" := Str("guest"), "guest_name" := Claim(claims, "name"),
                               "guest_id" := Claim(claims, "guest_id")]
    ensures r.Accepted? && Claim(claims, "type") != Str("guest") ==>
              r.context == map["user_type" := Str("google"), "user_id" := Uint(Float64ToUint(Claim(claims, "user_id").f))]
  {
    if Claim(claims, "type") == Str("guest") then
      Accepted(map["user_type" := Str("guest"), "guest_name" := Claim(claims, "name"),
                   "guest_id" := Str(Claim(claims, "guest_id").s)])
    else
      match Claim(claims, "user_id")
      case Float64(userID) => Accepted(map["user_type" := Str("google"), "user_id" := Uint(Float64ToUint(userID))])
      case _ => Rejected(StatusUnauthorized, "Invalid token (missing user_id)")
  }

  /** `AuthMiddleware` on one request's `Authorization` header. */
  function Authenticate(header: string, verifyToken: string -> Option<Claims>): (r: AuthOutcome)
    requires BearerToken(header).Some? && verifyToken(BearerToken(header).value).Some? ==>
               ClaimsAssertable(verifyToken(BearerToken(header).value).value)
    ensures header == "" ==> r == Rejected(StatusUnauthorized, "Missing authentication token")
    ensures header != "" && BearerToken(header).None? ==> r == Rejected(StatusUnauthorized, "Invalid authentication token")
    ensures BearerToken(header).Some? && verifyToken(BearerToken(header).value).None? ==>
              r == Rejected(StatusUnauthorized, "Invalid authentication token")
    ensures BearerToken(header).Some? && verifyToken(BearerToken(header).value).Some? ==>
              r == ClaimsOutcome(verifyToken(BearerToken(header).value).value)
    ensures r.Rejected? ==> r.status == StatusUnauthorized
  {
    if header == "" then Rejected(StatusUnauthorized, "Missing authentication token")
    else
      match BearerToken(header)
      case None => Rejected(StatusUnauthorized, "Invalid authentication token")
      case Some(tokenString) =>
        match verifyToken(tokenString)
        case None => Rejected(StatusUnauthorized, "Invalid authentication token")
        case Some(claims) => ClaimsOutcome(claims)
  }

  /** `c.Next` is reached exactly for a `Bearer` header whose token
      verifies and whose claims are a guest's or carry a numeric user id;
      the caller is then a guest exactly when the claims say so. */
  lemma AcceptedExactly(header: string, verifyToken: string -> Option<Claims>)
    requires BearerToken(header).Some? && verifyToken(BearerToken(header).value).Some? ==>
               ClaimsAssertable(verifyToken(BearerToken(header).value).value)
    ensures Authenticate(header, verifyToken).Accepted? <==>
              exists t :: && ' ' !in t && header == "Bearer" + [' '] + t && verifyToken(t).Some?
                          && (Claim(verifyToken(t).value, "type") == Str("guest")
                              || Claim(verifyToken(t).value, "user_id").Float64?)
    ensures Authenticate(header, verifyToken).Accepted? ==>
              var claims := verifyToken(BearerToken(header).value).value;
              var context := Authenticate(header, verifyToken).context;
              && (context["user_type"] == Str("guest") <==> Claim(claims, "type") == Str("guest"))
              && (context["user_type"] == Str("guest") || context["user_type"] == Str("google"))
  {
    var r := Authenticate(header, verifyToken);
    if r.Accepted? {
      var t := BearerToken(header).value;
      assert ' ' !in t && header == "Bearer" + [' '] + t;
    }
    if t :| && ' ' !in t && header == "Bearer" + [' '] + t && verifyToken(t).Some?
            && (Claim(verifyToken(t).value, "type") == Str("guest") || Claim(verifyToken(t).value, "user_id").Float64?) {
      SplitAfterPiece("Bearer", ' ', t);
      SplitNoSeparator(t, ' ');
      assert BearerToken(header) == Some(t);
    }
  }

  /** A header with anything before, after or instead of the one space
      after "Bearer" is refused before the verifier sees it. */
  lemma MalformedHeaderRefused(t: string, verifyToken: string -> Option<Claims>)
    requires ' ' !in t
    ensures BearerToken("Bearer" + [' ', ' '] + t).None?
    ensures BearerToken("Bearer" + [' '] + t + [' ']).None?
    ensures BearerToken("bearer" + [' '] + t).None?
    ensures Authenticate("Bearer" + [' ', ' '] + t, verifyToken) == Rejected(StatusUnauthorized, "Invalid authentication token")
    ensures Authenticate("Bearer" + [' '] + t + [' '], verifyToken) == Rejected(StatusUnauthorized, "Invalid authentication token")
    ensures Authenticate("bearer" + [' '] + t, verifyToken) == Rejected(StatusUnauthorized, "Invalid authentication token")
  {
    var h1 := "Bearer" + [' ', ' '] + t;
    var h2 := "Bearer" + [' '] + t + [' '];
    var h3 := "bearer" + [' '] + t;
    forall u | ' ' !in u
      ensures h1 != "Bearer" + [' '] + u && h2 != "Bearer" + [' '] + u && h3 != "Bearer" + [' '] + u
    {
      var candidate := "Bearer" + [' '] + u;
      assert candidate[0] != h3[0];
      if |u| > 0 {
        assert candidate[7] == u[0] != h1[7];
      } else {
        assert |candidate| != |h1|;
      }
      if |u| == |t| + 1 {
        assert candidate[7 + |t|] == u[|t|] != h2[7 + |t|];
      } else {
        assert |candidate| != |h2|;
      }
    }
  }
}
