/**
 * `createJwt` in mqtt_demo.js: the claims of the device's JSON Web Token,
 * signed with the device's private key. The clock, the key file and the
 * signer are foreign and enter as parameters.
 */
module Credential {

  import opened Options

  /** The two signature algorithms the command line offers. */
  datatype Algorithm = RS256 | ES256

  /**
   * Registered claims of RFC 7519: `iat` (section 4.1.6), `exp` (section 4.1.4),
   * both in seconds since the epoch, and `aud` (section 4.1.3).
   */
  datatype Claims = Claims(iat: int, exp: int, aud: string)

  datatype CredentialError = KeyFileUnreadable | SigningFailed

  /** A reading of `Date.now()`: milliseconds since the epoch, within the range of a JavaScript Date. */
  type TimeValue = t: int | -8_640_000_000_000_000 <= t <= 8_640_000_000_000_000

  /** The hard-coded token lifetime: 20 minutes. */
  const LifetimeSeconds: int := 20 * 60

  /**
   * `parseInt(ms / 1000)`: whole seconds of a reading, truncated toward zero.
   * On this range the quotient prints without an exponent, so `parseInt` truncates.
   */
  function Seconds(ms: TimeValue): (s: int)
    ensures ms >= 0 ==> s * 1000 <= ms < s * 1000 + 1000
    ensures ms < 0 ==> s * 1000 - 1000 < ms <= s * 1000
  {
    if ms >= 0 then ms / 1000 else -((-ms) / 1000)
  }

  /** The token object: `iat` from the first clock reading, `exp` from the second plus 20 minutes. */
  function MakeClaims(projectId: string, firstMs: TimeValue, secondMs: TimeValue): Claims
  {
    Claims(Seconds(firstMs), Seconds(secondMs) + LifetimeSeconds, projectId)
  }

  /**
   * `createJwt`: the claims above, then `readFileSync(privateKeyFile)`, then
   * `jwt.sign`. Either foreign call may throw; the throw becomes a `Failure`.
   */
  function CreateJwt(projectId: string, privateKeyFile: string, algorithm: Algorithm,
                     firstMs: TimeValue, secondMs: TimeValue,
                     readFile: string -> Option<seq<bv8>>,
                     sign: (Claims, seq<bv8>, Algorithm) -> Option<string>): (r: Result<string, CredentialError>)
    ensures readFile(privateKeyFile).None? ==> r == Failure(KeyFileUnreadable)
    ensures readFile(privateKeyFile).Some? && r.Failure? ==> r == Failure(SigningFailed)
    ensures r.Success? <==> readFile(privateKeyFile).Some?
                            && sign(MakeClaims(projectId, firstMs, secondMs), readFile(privateKeyFile).value, algorithm).Some?
    ensures r.Success? ==> r.value == sign(MakeClaims(projectId, firstMs, secondMs), readFile(privateKeyFile).value, algorithm).value
  {
    var claims := MakeClaims(projectId, firstMs, secondMs);
    match readFile(privateKeyFile)
    case None => Failure(KeyFileUnreadable)
    case Some(key) =>
      match sign(claims, key, algorithm)
      case None => Failure(SigningFailed)
      case Some(token) => Success(token)
  }

  /** With one clock reading the token lives exactly 1200 seconds, for the project it names. */
  lemma ClaimsOfOneReading(projectId: string, nowMs: TimeValue)
    ensures MakeClaims(projectId, nowMs, nowMs).exp - MakeClaims(projectId, nowMs, nowMs).iat == 1200
    ensures MakeClaims(projectId, nowMs, nowMs).aud == projectId
  {
  }

  /**
   * The two `Date.now()` calls of a monotone clock: the lifetime is never under
   * 1200 seconds, and is 1200 or 1201 when the readings lie under a second apart.
   */
  lemma ClaimsOfTwoReadings(projectId: string, firstMs: TimeValue, secondMs: TimeValue)
    requires firstMs <= secondMs
    ensures MakeClaims(projectId, firstMs, secondMs).exp - MakeClaims(projectId, firstMs, secondMs).iat >= 1200
    ensures secondMs < firstMs + 1000 ==>
      MakeClaims(projectId, firstMs, secondMs).exp - MakeClaims(projectId, firstMs, secondMs).iat in {1200, 1201}
  {
    var s1, s2 := Seconds(firstMs), Seconds(secondMs);
    assert s1 <= s2;
    if secondMs < firstMs + 1000 {
      assert s2 <= s1 + 1;
    }
  }
}
