# JWT issuer of the file-management Web API, in Dafny

This project models the token issuer of the file-management Web API
(`JwtFactory`). The issuer is built from a set of options and refuses options
that are missing, have a non-positive validity period, or lack signing
credentials or a token-id generator. Each of these has its own error, and the
checks run in that order. For an authenticated user it builds a claims
identity: the user name, the tag `"Token"`, a user-id claim and the API-access
role claim. For a user name and an identity it issues a token. The token
carries five claim slots: subject, token id (`jti`), issued-at (`iat`), then the
identity's first role claim and its first user-id claim. A claim the identity
lacks leaves its slot null; it is not an error. The issued-at value is the
configured instant in whole seconds since the Unix epoch, rounded to the
nearest second.

Modules:

- `Wrappers` (`wrappers.dfy`): `Option` stands for a nullable reference.
  `Outcome` is a check that passes or throws. `Result` is a value or an error.
- `Claims` (`claims.dfy`): claims, claims identities, and `FindFirst`. The
  lookup compares claim types without regard to case, as the platform's
  `ClaimsIdentity.FindFirst(string)` does. It returns the earliest match.
- `NumericDate` (`numeric_date.dfy`): instants are UTC tick counts, with
  100 ns per tick and tick 0 at 0001-01-01. They are converted to epoch seconds
  with round-half-to-even. This module also gives the decimal text of a 64-bit
  integer and a parser, so that the `iat` claim can be read back.
- `Auth` (`auth.dfy`): the options and their validation, and the issuer. The
  issuer is a subset type: it holds only options that passed validation. This
  module also has the claims identity, the outgoing claim slots, and the token
  record handed to the serialiser. Lemmas read the token's payload back.

The model is pure: the source's only state is the options field, which is set
once in the constructor. Constructing the issuer is a function that returns an
issuer or the first failed check's error. Issuing is a function of the issuer,
the user name, the generated token id and the identity.

## Model

| member | source | states |
|---|---|---|
| `Auth.ValidateOptions` | src/FileManagement/Web/FileManagement.Web.Api/Auth/JwtFactory.cs:64-82 | validation passes exactly when the options are present, `ValidFor > 0`, and signing credentials and a jti generator are present (equivalently, no requirement is violated); a failure names a violated requirement, and no requirement checked earlier is violated |
| `Auth.SingleViolationReported` | src/FileManagement/Web/FileManagement.Web.Api/Auth/JwtFactory.cs:64-82 | options that break exactly one requirement are rejected with that requirement's own error |
| `Auth.ValidForBoundary` | src/FileManagement/Web/FileManagement.Web.Api/Auth/JwtFactory.cs:68-71 | for present options, `ValidFor` zero or negative is reported as the ValidFor error whatever the later fields hold, and a positive `ValidFor` never is |
| `Auth.NewJwtFactory` | src/FileManagement/Web/FileManagement.Web.Api/Auth/JwtFactory.cs:19-23 | an issuer is produced exactly when validation passes, and it stores the supplied options unchanged; otherwise construction fails with the validation error; the issuer type admits only validated options |
| `Auth.GenerateClaimsIdentity` | src/FileManagement/Web/FileManagement.Web.Api/Auth/JwtFactory.cs:49-56 | principal name is the user name, authentication type is `"Token"`, and the claims are exactly the user-id claim followed by the API-access role claim |
| `Auth.IssuedAtClaim` | src/FileManagement/Web/FileManagement.Web.Api/Auth/JwtFactory.cs:31 | the `iat` claim is typed Integer64, and its text parses back to the issued-at instant in epoch seconds |
| `Auth.OutgoingClaims` | src/FileManagement/Web/FileManagement.Web.Api/Auth/JwtFactory.cs:27-34 | exactly five slots in order: `sub` = user name, `jti` = generated id, `iat`, then the identity's first role claim and first user-id claim, each possibly null |
| `Auth.GenerateEncodedToken` | src/FileManagement/Web/FileManagement.Web.Api/Auth/JwtFactory.cs:25-47 | with non-null arguments issuing does not fail; issuer, audience, not-before, expiry and the (present) signing credentials come from the options unchanged; the claims are the five outgoing slots |
| `Auth.PresentClaims` | src/FileManagement/Web/FileManagement.Web.Api/Auth/JwtFactory.cs:37-43 | the payload of a token holds exactly the claims of its non-null slots, and is no longer than the slot list |
| `Auth.ClaimNamesDistinct` | src/FileManagement/Web/FileManagement.Web.Api/Auth/JwtFactory.cs:29-33 | no two of the names `sub`, `jti`, `iat`, role and user id match each other, even ignoring case |
| `Auth.TokenRegisteredClaims` | src/FileManagement/Web/FileManagement.Web.Api/Auth/JwtFactory.cs:27-31 | reading the payload back gives `sub` = user name and `jti` = generated id, and an Integer64 `iat` that parses to the issued-at instant in epoch seconds |
| `Auth.TokenIdentityClaims` | src/FileManagement/Web/FileManagement.Web.Api/Auth/JwtFactory.cs:32-33 | the payload's role and user-id lookups give exactly what the identity's lookups give, including absence |
| `Auth.IssuedForGeneratedIdentity` | src/FileManagement/Web/FileManagement.Web.Api/Auth/JwtFactory.cs:32-54 | a token issued for an identity that `GenerateClaimsIdentity(u, id)` built has role slot = API-access role and user-id slot = `id`, and its payload reads them back |
| `Auth.MissingIdClaimTolerated` | src/FileManagement/Web/FileManagement.Web.Api/Auth/JwtFactory.cs:33 | an identity with no user-id claim still gets a token; the user-id slot is null and the payload has no user-id claim |
| `Claims.StringClaim` | src/FileManagement/Web/FileManagement.Web.Api/Auth/JwtFactory.cs:29-30 | records only the platform's default: a claim built from a type and a value has the string value type (also used at lines 53-54) |
| `Claims.TypeMatches` | src/FileManagement/Web/FileManagement.Web.Api/Auth/JwtFactory.cs:32-33 | the case-insensitive comparison inside the identity's lookup: two claim types match exactly when they have the same length and agree character by character after folding the case of ASCII letters |
| `Claims.FindFirst` | src/FileManagement/Web/FileManagement.Web.Api/Auth/JwtFactory.cs:32-33 | the lookup gives None exactly when no claim's type matches; otherwise it gives a claim of the list whose type matches, and no earlier claim matches |
| `Claims.FindFirstAppend` | src/FileManagement/Web/FileManagement.Web.Api/Auth/JwtFactory.cs:32-33 | lookup in a concatenation answers from the first list when it can, and only otherwise from the second |
| `NumericDate.RoundTicksToSeconds` | src/FileManagement/Web/FileManagement.Web.Api/Auth/JwtFactory.cs:60-62 | the result is within half a second of the exact tick count, and an exact tie goes to the even second |
| `NumericDate.ToUnixEpochDate` | src/FileManagement/Web/FileManagement.Web.Api/Auth/JwtFactory.cs:58-62 | epoch seconds of an instant fit a 64-bit integer, lie within half a second of the exact elapsed time, and ties go to even |
| `NumericDate.NearestSecond` | src/FileManagement/Web/FileManagement.Web.Api/Auth/JwtFactory.cs:58-62 | any integer strictly within half a second of the elapsed time is the result: the conversion rounds, it does not truncate |
| `NumericDate.WholeSeconds` | src/FileManagement/Web/FileManagement.Web.Api/Auth/JwtFactory.cs:58-62 | an instant exactly k whole seconds after the epoch converts to k; the epoch converts to 0 |
| `NumericDate.Monotonic` | src/FileManagement/Web/FileManagement.Web.Api/Auth/JwtFactory.cs:58-62 | a later instant never converts to fewer seconds |
| `NumericDate.Int64ToString` | src/FileManagement/Web/FileManagement.Web.Api/Auth/JwtFactory.cs:31 | the `ToString` of the epoch seconds: the text starts with a minus sign exactly when the value is negative, and the rest is a non-empty string of decimal digits with no leading zero |
| `NumericDate.ParseInt64` | src/FileManagement/Web/FileManagement.Web.Api/Auth/JwtFactory.cs:31 | nothing is parsed at this line: it tags the `iat` claim Integer64, and the serialiser then reads that claim's text as a number; this function stands for that reading, which accepts an optional minus sign and decimal digits and yields only values in the 64-bit range |
| `NumericDate.DecimalRoundTrip` | src/FileManagement/Web/FileManagement.Web.Api/Auth/JwtFactory.cs:31 | the value of the decimal digits printed for a natural number is that number |
| `NumericDate.Int64RoundTrip` | src/FileManagement/Web/FileManagement.Web.Api/Auth/JwtFactory.cs:31 | the text that `ToString` gives for a 64-bit integer parses back to that integer |
| `NumericDate.Int64ToStringInjective` | src/FileManagement/Web/FileManagement.Web.Api/Auth/JwtFactory.cs:31 | distinct 64-bit integers give distinct texts, so the `iat` text determines the epoch seconds |

## Left out

- Serialising and signing the token (`JwtSecurityToken`, `JwtSecurityTokenHandler.WriteToken`, JwtFactory.cs:37-46) is done by a library. The model returns the token record handed to it. Any checks that library makes of its own, such as expiry after not-before, are not modelled.
- `Auth.PresentClaims`: the model takes a null claim slot to contribute nothing to the payload. This is how the serialiser is understood to treat a null claim; its code is not part of this model.
- `Auth.GenerateEncodedToken`: the model's strings and identity cannot be null, so the source's null-argument failures are not modelled. A null `userName` makes `new Claim` throw ArgumentNullException (JwtFactory.cs:29). A generator that returns a null id makes `new Claim` throw at JwtFactory.cs:30. A null `identity` makes `FindFirst` throw NullReferenceException (JwtFactory.cs:32).
- `Auth.GenerateEncodedToken`: the model fixes the options when the issuer is built. The source reads `IssuedAt`, `NotBefore`, `Expiration` and `SigningCredentials` again from the stored options object on every call (JwtFactory.cs:31, 38-43). The `JwtFactory` type keeps the options valid only under the assumption that this object is not changed after construction.
- `Auth.GenerateClaimsIdentity`: a null `userName` or `id` is not modelled. In the source, `new GenericIdentity(userName, "Token")` and `new Claim(Id, id)` throw ArgumentNullException for them (JwtFactory.cs:51-53).
- The asynchronous `JtiGenerator` call and its `Task` plumbing are not modelled. The generated id is a parameter of `GenerateEncodedToken`. A generator that fails or throws is outside the model.
- `NumericDate.ToUnixEpochDate`: the instant is taken to be in UTC already, so `ToUniversalTime` and time zones are not modelled. Rounding is done on the exact tick count, not on the `double` `TotalSeconds`. Where that double cannot represent the elapsed time exactly, .NET's result may differ by the double's rounding. No agreement with the floating-point path is claimed.
- `Claims.FindFirst`: case-insensitive matching folds only the ASCII letters. The platform's ordinal case-insensitive comparison also folds other letters.
- `Auth.GenerateClaimsIdentity`: the platform's `GenericIdentity` also gives the built identity a name claim with the user name. The model keeps the user name in the identity's `name` field, so the claim list holds only the two claims the source supplies. Neither the role lookup nor the user-id lookup can match a name claim.
- `NumericDate.Int64ToString`: uses `-` as the negative sign. A culture with a different negative sign is not modelled. Only instants before 1970 give negative values.
- The values of the application constants for the role claim name, the user-id claim name and the API-access role are not part of this model. The model uses `"rol"`, `"id"` and `"api_access"`. Its lemmas use only the fact that these claim names differ from each other and from `sub`, `jti` and `iat`.
- `JwtIssuerOptions` is not part of this model. How `IssuedAt`, `NotBefore` and `Expiration` are derived is opaque here, so "expiry minus issued-at equals the validity period" is not stated.
- `Auth.ValidateOptions`: exception types, messages and parameter names are represented only by the distinct error values.
- A null `IOptions<JwtIssuerOptions>` accessor is not modelled. It fails at JwtFactory.cs:21 before validation runs, and dependency injection never supplies one.
- Common/Errors.cs adds model-state errors through ASP.NET and has no logic of its own to model. account-routing.module.ts is client-side route configuration with no logic.
