/** Device fingerprinting and token signing (`DeviceIdentifier` and
    `SubmitEmailView._generate_hmac_token` in feedback/views.py).

    SHA-256 and HMAC-SHA256 are not modelled: they enter as function values
    whose only known property is their result type, a 64-character lower-case
    hex digest. The server's secret key is a field of the same record, since
    the process reads it once and never changes it. */
module Signing {
  import opened Text
  import opened Clock
  import opened Http

  datatype Crypto = Crypto(
    sha256: string -> HexDigest,
    hmacSha256: (string, string) -> HexDigest,
    secretKey: string)

  /** `META` names of the three headers fingerprinting reads. */
  const DeviceHeader := "HTTP_X_DEVICE_ID"
  const UserAgentHeader := "HTTP_USER_AGENT"
  const AcceptLanguageHeader := "HTTP_ACCEPT_LANGUAGE"

  /** How many hex characters of the SHA-256 digest a web fingerprint keeps. */
  const FingerprintLength := 32

  /** The text hashed for a web client: user agent and accept-language,
      joined by a bar. */
  function FingerprintData(userAgent: string, acceptLanguage: string): string {
    userAgent + "|" + acceptLanguage
  }

  /** The fallback fingerprint: the leading 32 hex characters of the SHA-256
      digest of the two browser headers, each read as `""` when absent. */
  function WebFingerprint(meta: Params, crypto: Crypto): (id: string)
    ensures |id| == FingerprintLength && IsLowerHex(id)
    ensures id <= crypto.sha256(FingerprintData(
      Field(meta, UserAgentHeader).GetOr(""), Field(meta, AcceptLanguageHeader).GetOr("")))
  {
    var digest := crypto.sha256(FingerprintData(
      Field(meta, UserAgentHeader).GetOr(""), Field(meta, AcceptLanguageHeader).GetOr("")));
    digest[..FingerprintLength]
  }

  /** `DeviceIdentifier.get_device_id`: an explicit, non-empty device header
      is taken verbatim; otherwise the web fingerprint. Either way the result
      is never blank. */
  function DeviceId(meta: Params, crypto: Crypto): (id: string)
    ensures Truthy(Field(meta, DeviceHeader)) ==> id == meta[DeviceHeader]
    ensures !Truthy(Field(meta, DeviceHeader)) ==> id == WebFingerprint(meta, crypto)
    ensures id != ""
  {
    var header := Field(meta, DeviceHeader);
    if Truthy(header) then header.value else WebFingerprint(meta, crypto)
  }

  predicate IsUrlSafeChar(c: char) {
    'A' <= c <= 'Z' || 'a' <= c <= 'z' || '0' <= c <= '9' || c == '-' || c == '_'
  }

  /** What `secrets.token_urlsafe(8)` returns: eight random bytes in unpadded
      URL-safe base64, eleven characters. The randomness itself is an input. */
  type Nonce = s: string | |s| == 11 && forall i :: 0 <= i < |s| ==> IsUrlSafeChar(s[i])
    witness seq(11, _ => 'A')

  /** The signed message: e-mail, device id, whole Unix seconds and nonce,
      separated by bars. */
  function SigningMessage(email: string, deviceId: string, seconds: int, nonce: Nonce): string {
    email + "|" + deviceId + "|" + IntToString(seconds) + "|" + nonce
  }

  /** `_generate_hmac_token`: the hex HMAC-SHA256 of the signing message
      under the server's secret key. Its length is the one the confirmation
      view insists on. */
  function GenerateToken(crypto: Crypto, email: string, deviceId: string, now: Time, nonce: Nonce): (token: HexDigest)
    ensures |token| == HexDigestLength && IsLowerHex(token)
  {
    crypto.hmacSha256(crypto.secretKey, SigningMessage(email, deviceId, UnixSeconds(now), nonce))
  }

  /** The timestamp field does what it is there for: for the same e-mail,
      device and nonce, different whole seconds give different messages to
      sign. */
  lemma DistinctSecondsDistinctMessages(email: string, deviceId: string, s1: int, s2: int, nonce: Nonce)
    requires s1 != s2
    ensures SigningMessage(email, deviceId, s1, nonce) != SigningMessage(email, deviceId, s2, nonce)
  {
    IntToStringRoundTrip(s1);
    IntToStringRoundTrip(s2);
    var prefix := email + "|" + deviceId + "|";
    var suffix := "|" + nonce;
    assert SigningMessage(email, deviceId, s1, nonce) == prefix + IntToString(s1) + suffix;
    assert SigningMessage(email, deviceId, s2, nonce) == prefix + IntToString(s2) + suffix;
    FramedMiddleDetermined(prefix, IntToString(s1), IntToString(s2), suffix);
  }

  /** Two strings framed by the same prefix and suffix are equal only if
      their middles are. */
  lemma FramedMiddleDetermined(prefix: string, a: string, b: string, suffix: string)
    ensures prefix + a + suffix == prefix + b + suffix ==> a == b
  {
    if prefix + a + suffix == prefix + b + suffix {
      var m := prefix + a + suffix;
      assert a == m[|prefix|..|prefix| + |a|];
      assert b == m[|prefix|..|prefix| + |b|];
    }
  }

  /** A present, non-empty device header always wins, whatever the browser
      headers say; without one, two requests with the same browser headers get
      the same id. */
  lemma DeviceIdSources(meta: Params, other: Params, crypto: Crypto)
    ensures Truthy(Field(meta, DeviceHeader)) ==> DeviceId(meta, crypto) == meta[DeviceHeader]
    ensures !Truthy(Field(meta, DeviceHeader)) && !Truthy(Field(other, DeviceHeader))
            && Field(meta, UserAgentHeader).GetOr("") == Field(other, UserAgentHeader).GetOr("")
            && Field(meta, AcceptLanguageHeader).GetOr("") == Field(other, AcceptLanguageHeader).GetOr("")
            ==> DeviceId(meta, crypto) == DeviceId(other, crypto)
    ensures !Truthy(Field(meta, DeviceHeader)) ==> |DeviceId(meta, crypto)| == FingerprintLength
  {
  }

  /** The token carries only whole seconds of the clock: two issuances for the
      same e-mail and device within one second that draw the same nonce get the
      same token. */
  lemma SameSecondSameToken(crypto: Crypto, email: string, deviceId: string, t1: Time, t2: Time, nonce: Nonce)
    requires 0 <= t1 <= t2 < (UnixSeconds(t1) + 1) * MicrosPerSecond
    ensures UnixSeconds(t1) == UnixSeconds(t2)
    ensures GenerateToken(crypto, email, deviceId, t1, nonce) == GenerateToken(crypto, email, deviceId, t2, nonce)
  {
  }
}
