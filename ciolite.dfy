/**
 * The client record, its constructor with the default host and timeout, and
 * the HMAC check of webhook and account-status callbacks.
 */
module Ciolite {
  import opened Wrappers
  import opened GoTypes
  import opened Hex
  import opened Strconv

  /** The default base URL of the Lite API. */
  const DefaultHost: GoString := "https://api.context.io"

  /** `time.Second`: durations are counted in nanoseconds. */
  const Second: int := 1_000_000_000

  /** The timeout the default HTTP client is given. */
  const DefaultRequestTimeout: int := 120 * Second

  /** The part of `http.Client` the library configures. */
  datatype HttpClient = HttpClient(timeout: int)

  /** `url.Values`. */
  type Values = map<GoString, seq<GoString>>

  /** `time.Time`, as nanoseconds since the epoch. */
  type Time = int

  /** Arguments: user id, account label, method, URL, redacted body values. */
  type PreRequestHook = (GoString, GoString, GoString, GoString, Values) -> ()

  /**
   * Arguments: attempt number, user id, account label, method, URL, status
   * code, payload, start of this attempt, start of all attempts, error.
   * The result says whether to retry.
   */
  type PostRequestShouldRetryHook =
    (int, GoString, GoString, GoString, GoString, int, GoString, Time, Time, Option<Error>) -> bool

  type ResponseBodyCloseErrorHook = Error -> ()

  /** `CioLite`: credentials, base URL, HTTP client and the optional hooks (a nil func is `None`). */
  datatype CioLite = CioLite(
    apiKey: GoString,
    apiSecret: GoString,
    host: GoString,
    httpClient: Option<HttpClient>,
    preRequestHook: Option<PreRequestHook>,
    postRequestShouldRetryHook: Option<PostRequestShouldRetryHook>,
    responseBodyCloseErrorHook: Option<ResponseBodyCloseErrorHook>)

  /** A client with the given credentials, the default host, a 120-second client and no hooks. */
  function NewCioLite(key: GoString, secret: GoString): (c: CioLite)
    ensures c.apiKey == key && c.apiSecret == secret
    ensures c.host == DefaultHost
    ensures c.httpClient == Some(HttpClient(120 * Second))
    ensures c.preRequestHook.None? && c.postRequestShouldRetryHook.None? && c.responseBodyCloseErrorHook.None?
  {
    CioLite(key, secret, DefaultHost, Some(HttpClient(DefaultRequestTimeout)), None, None, None)
  }

  /** The size in bytes of a SHA-256 digest (FIPS 180-4). */
  const DigestSize := 32

  type Digest = d: seq<Byte> | |d| == DigestSize witness seq(DigestSize, _ => '\0')

  /**
   * HMAC (RFC 2104) over SHA-256, taking the key and then the message. The
   * hash itself lies outside the model: any such function may be passed.
   */
  type HmacSha256 = (GoString, GoString) -> Digest

  /**
   * `hashHmac` with `sha256.New`: the lowercase hexadecimal text of the HMAC of
   * `message` under `secret`, 64 characters long, from which the digest can be
   * read back.
   */
  function HashHmac(hmac: HmacSha256, message: GoString, secret: GoString): (r: GoString)
    ensures |r| == 2 * DigestSize
    ensures IsLowerHex(r)
    ensures DecodeString(r) == Option<seq<Byte>>.Some(hmac(secret, message))
  {
    DecodeEncode(hmac(secret, message));
    EncodeToString(hmac(secret, message))
  }

  /** The signed text: the decimal timestamp immediately followed by the token. */
  function SignedMessage(timestamp: int, token: GoString): GoString {
    Itoa(timestamp) + token
  }

  /**
   * The signed message starts with the decimal text of the timestamp (a `-`
   * and then digits when it is negative, digits otherwise), which reads back
   * as the timestamp, and continues with the token and nothing else.
   */
  lemma SignedMessageParts(timestamp: int, token: GoString)
    ensures var m := SignedMessage(timestamp, token);
      var n := |Itoa(timestamp)|;
      n <= |m| && Atoi(m[..n]) == Some(timestamp) && m[n..] == token
      && (m[0] == '-' <==> timestamp < 0)
      && (timestamp >= 0 ==> AllDigits(m[..n]))
      && (timestamp < 0 ==> AllDigits(m[1..n]))
  {
    var m := SignedMessage(timestamp, token);
    var n := |Itoa(timestamp)|;
    assert m[..n] == Itoa(timestamp);
    assert m[n..] == token;
    AtoiItoa(timestamp);
    ItoaShape(timestamp);
    assert m[1..n] == Itoa(timestamp)[1..];
  }

  /** `ValidateCallback`: the digest of the signed message, in hex, must equal `signature`. */
  function ValidateCallback(cio: CioLite, hmac: HmacSha256, token: GoString, signature: GoString, timestamp: int): (ok: bool)
  {
    var hash := HashHmac(hmac, SignedMessage(timestamp, token), cio.apiSecret);
    |hash| > 0 && signature == hash
  }

  /**
   * A callback validates exactly when the signature is lowercase hexadecimal
   * text whose bytes are the HMAC of the signed message under the stored secret.
   */
  lemma ValidateCallbackIff(cio: CioLite, hmac: HmacSha256, token: GoString, signature: GoString, timestamp: int)
    ensures ValidateCallback(cio, hmac, token, signature, timestamp) <==>
      (IsLowerHex(signature) &&
       DecodeString(signature) == Option<seq<Byte>>.Some(hmac(cio.apiSecret, SignedMessage(timestamp, token))))
  {
    var digest: seq<Byte> := hmac(cio.apiSecret, SignedMessage(timestamp, token));
    var hash := HashHmac(hmac, SignedMessage(timestamp, token), cio.apiSecret);
    if IsLowerHex(signature) && DecodeString(signature) == Some(digest) {
      EncodeDecodeLower(signature);
      assert signature == EncodeToString(digest) == hash;
    }
  }

  /** Signatures of any length other than 64, or with a character outside `0-9a-f`, are rejected. */
  lemma RejectsMalformedSignature(cio: CioLite, hmac: HmacSha256, token: GoString, signature: GoString, timestamp: int)
    requires |signature| != 2 * DigestSize || !IsLowerHex(signature)
    ensures !ValidateCallback(cio, hmac, token, signature, timestamp)
  {
  }

  /** An uppercase spelling of the right digest is rejected too. */
  lemma RejectsUppercaseDigit(cio: CioLite, hmac: HmacSha256, token: GoString, signature: GoString, timestamp: int, i: int)
    requires 0 <= i < |signature| && 'A' <= signature[i] <= 'F'
    ensures !ValidateCallback(cio, hmac, token, signature, timestamp)
  {
    assert !IsLowerHexDigit(signature[i]);
  }

  /** The `len(hash) > 0` guard never fails, so an empty secret is accepted like any other. */
  lemma EmptySecretNotRejected(cio: CioLite, hmac: HmacSha256, token: GoString, timestamp: int)
    requires cio.apiSecret == ""
    ensures ValidateCallback(cio, hmac, token, HashHmac(hmac, SignedMessage(timestamp, token), ""), timestamp)
  {
  }

  /** Only the stored secret matters: host, HTTP client, hooks and key do not. */
  lemma ValidateCallbackUsesOnlySecret(c1: CioLite, c2: CioLite, hmac: HmacSha256, token: GoString, signature: GoString, timestamp: int)
    requires c1.apiSecret == c2.apiSecret
    ensures ValidateCallback(c1, hmac, token, signature, timestamp) == ValidateCallback(c2, hmac, token, signature, timestamp)
  {
  }

  /**
   * With no separator between timestamp and token, timestamp 1 with token "23"
   * and timestamp 12 with token "3" sign the same text, so one signature
   * validates both callbacks.
   */
  lemma MessageBoundaryAmbiguous(cio: CioLite, hmac: HmacSha256, signature: GoString)
    ensures SignedMessage(1, "23") == SignedMessage(12, "3")
    ensures ValidateCallback(cio, hmac, "23", signature, 1) == ValidateCallback(cio, hmac, "3", signature, 12)
  {
    assert Itoa(1) == "1";
    assert Itoa(12) == FormatNat(1) + [DigitChar(2)];
  }
}
