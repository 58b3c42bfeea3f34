/** The JWT issuer: validation of its options when it is built, the claims
    identity it builds for an authenticated user, and the claims and fields
    of the security token it issues for that identity. Serialising and
    signing the token is done by a library and is not part of this model;
    the token is the record handed to that library. */
module Auth {
  import opened Wrappers
  import opened Claims
  import opened NumericDate

  /** Registered claim names of sections 4.1.2, 4.1.7 and 4.1.6 of RFC 7519. */
  const Sub: string := "sub"
  const Jti: string := "jti"
  const Iat: string := "iat"

  /** The application's role and user-id claim names and its API-access role.
      The model relies only on the two names being different claims. */
  const Rol: string := "rol"
  const Id: string := "id"
  const ApiAccess: string := "api_access"

  /** Authentication type tag of the identities the issuer builds. */
  const TokenAuthenticationType: string := "Token"

  /** Key material and algorithm; opaque to the issuer, which only passes it on. */
  datatype SigningCredentials = SigningCredentials(key: seq<bv8>, algorithm: string)

  /** A reference to the token-id generator. What it generates is an input of
      `GenerateEncodedToken`, so only its presence matters here. */
  datatype JtiGenerator = JtiGenerator(handle: nat)

  /** The issuer's options. A duration such as `validFor` is a signed tick
      count; a null reference is `None`. */
  datatype JwtIssuerOptions = JwtIssuerOptions(
    issuer: string,
    audience: string,
    issuedAt: Instant,
    notBefore: Instant,
    expiration: Instant,
    validFor: int,
    signingCredentials: Option<SigningCredentials>,
    jtiGenerator: Option<JtiGenerator>)

  /** One error per check, each standing for the distinct exception it throws. */
  datatype OptionsError = OptionsNull | ValidForNotPositive | SigningCredentialsNull | JtiGeneratorNull

  /** Position of each check in the order in which they run. */
  function CheckOrder(e: OptionsError): nat
  {
    match e
    case OptionsNull => 0
    case ValidForNotPositive => 1
    case SigningCredentialsNull => 2
    case JtiGeneratorNull => 3
  }

  /** The requirement that `e` stands for is not met by `options`. */
  predicate Violates(options: Option<JwtIssuerOptions>, e: OptionsError)
  {
    match e
    case OptionsNull => options.None?
    case ValidForNotPositive => options.Some? && options.value.validFor <= 0
    case SigningCredentialsNull => options.Some? && options.value.signingCredentials.None?
    case JtiGeneratorNull => options.Some? && options.value.jtiGenerator.None?
  }

  /** What an issuer needs of its options. */
  predicate WellFormed(o: JwtIssuerOptions)
  {
    o.validFor > 0 && o.signingCredentials.Some? && o.jtiGenerator.Some?
  }

  /** The option checks run in order; the first one that fails decides the
      error. Passing all of them is exactly being well formed. */
  function ValidateOptions(options: Option<JwtIssuerOptions>): (r: Outcome<OptionsError>)
    ensures r.Pass? <==> options.Some? && WellFormed(options.value)
    ensures r.Pass? <==> forall e :: !Violates(options, e)
    ensures r.Fail? ==> Violates(options, r.error)
    ensures r.Fail? ==> forall e :: CheckOrder(e) < CheckOrder(r.error) ==> !Violates(options, e)
  {
    if options.None? then
      assert Violates(options, OptionsNull);
      Fail(OptionsNull)
    else if options.value.validFor <= 0 then
      assert Violates(options, ValidForNotPositive);
      Fail(ValidForNotPositive)
    else if options.value.signingCredentials.None? then
      assert Violates(options, SigningCredentialsNull);
      Fail(SigningCredentialsNull)
    else if options.value.jtiGenerator.None? then
      assert Violates(options, JtiGeneratorNull);
      Fail(JtiGeneratorNull)
    else Pass
  }

  /** Options that break exactly one requirement are rejected with that
      requirement's own error. */
  lemma SingleViolationReported(options: Option<JwtIssuerOptions>, e: OptionsError)
    requires Violates(options, e)
    requires forall e' :: e' != e ==> !Violates(options, e')
    ensures ValidateOptions(options) == Fail(e)
  {
  }

  /** A zero or negative validity period is reported as such whatever the
      later fields hold, and a positive one never is. */
  lemma ValidForBoundary(o: JwtIssuerOptions)
    ensures o.validFor <= 0 <==> ValidateOptions(Some(o)) == Fail(ValidForNotPositive)
  {
  }

  datatype Factory = Factory(jwtOptions: JwtIssuerOptions)

  /** An issuer: it exists only with options that passed validation. */
  type JwtFactory = f: Factory | WellFormed(f.jwtOptions)
    witness Factory(JwtIssuerOptions("", "", 0, 0, 0, 1, Some(SigningCredentials([], "")), Some(JtiGenerator(0))))

  /** Building an issuer stores the options it is given and validates them
      once; a failed check yields its error and no issuer. */
  function NewJwtFactory(jwtOptions: Option<JwtIssuerOptions>): (r: Result<JwtFactory, OptionsError>)
    ensures r.Success? <==> ValidateOptions(jwtOptions).Pass?
    ensures r.Success? ==> jwtOptions == Some(r.value.jwtOptions)
    ensures r.Failure? ==> ValidateOptions(jwtOptions) == Fail(r.error)
  {
    match ValidateOptions(jwtOptions)
    case Fail(e) => Failure(e)
    case Pass => Success(Factory(jwtOptions.value))
  }

  /** The identity of an authenticated user: named after the user, tagged as
      token-authenticated, holding the user-id claim and then the API-access
      role claim, and nothing else. It does not depend on the issuer's options. */
  function GenerateClaimsIdentity(userName: string, id: string): (identity: ClaimsIdentity)
    ensures identity.name == userName
    ensures identity.authenticationType == TokenAuthenticationType
    ensures identity.claims == [StringClaim(Id, id), StringClaim(Rol, ApiAccess)]
  {
    ClaimsIdentity(userName, TokenAuthenticationType, [StringClaim(Id, id), StringClaim(Rol, ApiAccess)])
  }

  /** The issued-at claim: the instant as whole epoch seconds, in decimal,
      typed as a 64-bit integer. */
  function IssuedAtClaim(issuedAt: Instant): (c: Claim)
    ensures c.claimType == Iat && c.valueType == ValueTypeInteger64
    ensures ParseInt64(c.value) == Some(ToUnixEpochDate(issuedAt))
  {
    var seconds := ToUnixEpochDate(issuedAt);
    Int64RoundTrip(seconds);
    Claim(Iat, Int64ToString(seconds), ValueTypeInteger64)
  }

  /** The claims put into a token, slot by slot: subject, token id and issued
      at, then the identity's first role claim and first user-id claim. A
      claim the identity lacks leaves its slot empty (a null claim). */
  function OutgoingClaims(userName: string, jti: string, issuedAt: Instant, identity: ClaimsIdentity)
    : (slots: seq<Option<Claim>>)
    ensures |slots| == 5
    ensures slots[0] == Some(StringClaim(Sub, userName))
    ensures slots[1] == Some(StringClaim(Jti, jti))
    ensures slots[2] == Some(IssuedAtClaim(issuedAt))
    ensures slots[3] == FindFirst(identity.claims, Rol)
    ensures slots[4] == FindFirst(identity.claims, Id)
  {
    [ Some(StringClaim(Sub, userName)),
      Some(StringClaim(Jti, jti)),
      Some(IssuedAtClaim(issuedAt)),
      FindFirst(identity.claims, Rol),
      FindFirst(identity.claims, Id) ]
  }

  /** The security token handed to the serialiser. */
  datatype SecurityToken = SecurityToken(
    issuer: string,
    audience: string,
    claims: seq<Option<Claim>>,
    notBefore: Instant,
    expires: Instant,
    signingCredentials: SigningCredentials)

  /** Issues a token for `identity` under `userName`, with `jti` the value the
      generator produced. Provenance, validity window and credentials come
      from the options unchanged; with arguments that are not null, issuing
      does not fail. */
  function GenerateEncodedToken(factory: JwtFactory, userName: string, jti: string, identity: ClaimsIdentity)
    : (token: SecurityToken)
    ensures token.issuer == factory.jwtOptions.issuer
    ensures token.audience == factory.jwtOptions.audience
    ensures token.notBefore == factory.jwtOptions.notBefore
    ensures token.expires == factory.jwtOptions.expiration
    ensures Some(token.signingCredentials) == factory.jwtOptions.signingCredentials
    ensures token.claims == OutgoingClaims(userName, jti, factory.jwtOptions.issuedAt, identity)
  {
    var o := factory.jwtOptions;
    SecurityToken(o.issuer, o.audience, OutgoingClaims(userName, jti, o.issuedAt, identity),
                  o.notBefore, o.expiration, o.signingCredentials.value)
  }

  /** The claims a token's payload carries: its slots in order, empty slots
      contributing nothing. */
  function PresentClaims(slots: seq<Option<Claim>>): (cs: seq<Claim>)
    ensures |cs| <= |slots|
    ensures forall c :: c in cs <==> Some(c) in slots
  {
    if slots == [] then []
    else
      var rest := PresentClaims(slots[1..]);
      assert forall s :: s in slots <==> s == slots[0] || s in slots[1..];
      if slots[0].Some? then [slots[0].value] + rest else rest
  }

  function Payload(token: SecurityToken): seq<Claim>
  {
    PresentClaims(token.claims)
  }

  /** No two of the five claim names of a token name the same claim. */
  lemma ClaimNamesDistinct()
    ensures !TypeMatches(Sub, Jti) && !TypeMatches(Sub, Iat) && !TypeMatches(Jti, Iat)
    ensures !TypeMatches(Rol, Sub) && !TypeMatches(Rol, Jti) && !TypeMatches(Rol, Iat)
    ensures !TypeMatches(Id, Sub) && !TypeMatches(Id, Jti) && !TypeMatches(Id, Iat)
    ensures !TypeMatches(Rol, Id)
  {
    assert Fold(Sub)[0] == 'S' && Fold(Jti)[0] == 'J' && Fold(Iat)[0] == 'I' && Fold(Rol)[0] == 'R';
    assert Fold(Iat)[1] == 'A' && |Fold(Id)| == 2;
  }

  /** Reading a token's payload back gives the subject, the generated token
      id and the issued-at instant in epoch seconds. */
  lemma TokenRegisteredClaims(factory: JwtFactory, userName: string, jti: string, identity: ClaimsIdentity)
    ensures var payload := Payload(GenerateEncodedToken(factory, userName, jti, identity));
      && FindFirst(payload, Sub) == Some(StringClaim(Sub, userName))
      && FindFirst(payload, Jti) == Some(StringClaim(Jti, jti))
      && FindFirst(payload, Iat).Some?
      && FindFirst(payload, Iat).value.valueType == ValueTypeInteger64
      && ParseInt64(FindFirst(payload, Iat).value.value) == Some(ToUnixEpochDate(factory.jwtOptions.issuedAt))
  {
    var slots := GenerateEncodedToken(factory, userName, jti, identity).claims;
    var sub, id, iat := StringClaim(Sub, userName), StringClaim(Jti, jti), IssuedAtClaim(factory.jwtOptions.issuedAt);
    var tail := PresentClaims(slots[3..]);
    PayloadSplit(slots);
    ClaimNamesDistinct();
    FindFirstAfterThree(sub, id, iat, tail, Sub);
    FindFirstAfterThree(sub, id, iat, tail, Jti);
    FindFirstAfterThree(sub, id, iat, tail, Iat);
  }

  /** The token carries the role and user-id claims the identity's lookups
      find, and lacks each one the identity lacks. */
  lemma TokenIdentityClaims(factory: JwtFactory, userName: string, jti: string, identity: ClaimsIdentity)
    ensures var payload := Payload(GenerateEncodedToken(factory, userName, jti, identity));
      && FindFirst(payload, Rol) == FindFirst(identity.claims, Rol)
      && FindFirst(payload, Id) == FindFirst(identity.claims, Id)
  {
    var slots := GenerateEncodedToken(factory, userName, jti, identity).claims;
    var sub, id, iat := StringClaim(Sub, userName), StringClaim(Jti, jti), IssuedAtClaim(factory.jwtOptions.issuedAt);
    var tail := PresentClaims(slots[3..]);
    PayloadSplit(slots);
    ClaimNamesDistinct();
    FindFirstAfterThree(sub, id, iat, tail, Rol);
    FindFirstAfterThree(sub, id, iat, tail, Id);
    FoundClaimsLookup(FindFirst(identity.claims, Rol), FindFirst(identity.claims, Id));
  }

  /** Lookup among the found role claim and the found user-id claim. */
  lemma FoundClaimsLookup(rol: Option<Claim>, id: Option<Claim>)
    requires rol.Some? ==> TypeMatches(rol.value.claimType, Rol)
    requires id.Some? ==> TypeMatches(id.value.claimType, Id)
    ensures FindFirst(PresentClaims([rol, id]), Rol) == rol
    ensures FindFirst(PresentClaims([rol, id]), Id) == id
  {
  }

  /** The payload is the three registered claims followed by whichever of the
      identity's claims were found. */
  lemma PayloadSplit(slots: seq<Option<Claim>>)
    requires |slots| == 5 && slots[0].Some? && slots[1].Some? && slots[2].Some?
    ensures PresentClaims(slots) == [slots[0].value, slots[1].value, slots[2].value] + PresentClaims(slots[3..])
  {
    var s1, s2, s3 := slots[1..], slots[2..], slots[3..];
    assert s1[1..] == s2 && s2[1..] == s3;
    PresentClaimsStep(s2);
    PresentClaimsStep(s1);
    PresentClaimsStep(slots);
  }

  lemma PresentClaimsStep(slots: seq<Option<Claim>>)
    requires |slots| > 0 && slots[0].Some?
    ensures PresentClaims(slots) == [slots[0].value] + PresentClaims(slots[1..])
  {
  }


  /** An identity built for a user and then issued a token: the token's role
      slot holds the API-access role and its user-id slot the user's id. */
  lemma IssuedForGeneratedIdentity(factory: JwtFactory, userName: string, id: string, jti: string)
    ensures var token := GenerateEncodedToken(factory, userName, jti, GenerateClaimsIdentity(userName, id));
      && token.claims[3] == Some(StringClaim(Rol, ApiAccess))
      && token.claims[4] == Some(StringClaim(Id, id))
      && FindFirst(Payload(token), Rol) == Some(StringClaim(Rol, ApiAccess))
      && FindFirst(Payload(token), Id) == Some(StringClaim(Id, id))
  {
    ClaimNamesDistinct();
    TokenIdentityClaims(factory, userName, jti, GenerateClaimsIdentity(userName, id));
  }

  /** An identity without a user-id claim still gets a token; its user-id slot
      is empty and its payload has no user-id claim. */
  lemma MissingIdClaimTolerated(factory: JwtFactory, userName: string, jti: string, identity: ClaimsIdentity)
    requires forall i :: 0 <= i < |identity.claims| ==> !TypeMatches(identity.claims[i].claimType, Id)
    ensures var token := GenerateEncodedToken(factory, userName, jti, identity);
      && token.claims[4] == None
      && FindFirst(Payload(token), Id) == None
  {
    TokenIdentityClaims(factory, userName, jti, identity);
  }
}
