/** Signed opaque handles: format_signed_token and verify_signed_token undo each other. */
module PreviewTokens {
  import opened ByteStrings
  import opened Base64Url
  import opened Wrappers

  const PREFIX := "pit2."
  const SECRET_BYTES := 32
  const ID_BYTES := 24

  datatype TokenResult = Ok(value: string) | InvalidToken | InvalidSecret

  /** HMAC-SHA-256 as a function of the key and the signed text; its values have 32 bytes. */
  type Mac = (Bytes, string) -> Bytes

  ghost predicate IsMac(mac: Mac) {
    forall k, t :: |mac(k, t)| == 32
  }

  // The characters that str.strip() takes off.
  predicate IsSpace(c: char) {
    var n := c as int;
    || 9 <= n <= 13 || 28 <= n <= 32 || n == 0x85 || n == 0xA0 || n == 0x1680 || 0x2000 <= n <= 0x200A
    || n == 0x2028 || n == 0x2029 || n == 0x202F || n == 0x205F || n == 0x3000
  }

  function StripLeft(s: string): string {
    if s != "" && IsSpace(s[0]) then StripLeft(s[1..]) else s
  }

  function StripRight(s: string): string {
    if s != "" && IsSpace(s[|s| - 1]) then StripRight(s[..|s| - 1]) else s
  }

  function Strip(s: string): string {
    StripRight(StripLeft(s))
  }

  predicate AllDigits(s: string) {
    forall c | c in s :: IsDigit(c)
  }

  predicate IsId(s: string) {
    24 <= |s| <= 96 && AllDigits(s)
  }

  predicate IsSignature(s: string) {
    32 <= |s| <= 96 && AllDigits(s)
  }

  // _decode_secret
  function SecretKey(secret: string): Option<Bytes> {
    match Decode(Strip(secret))
    case None => None
    case Some(key) => if |key| < SECRET_BYTES then None else Some(key)
  }

  function Signature(mac: Mac, key: Bytes, id: string): string {
    Encode(mac(key, PREFIX + id))
  }

  function TokenText(id: string, signature: string): string {
    PREFIX + (id + "." + signature)
  }

  // format_signed_token; the identifier is checked before the secret.
  function FormatToken(mac: Mac, secret: string, tokenId: string): TokenResult {
    var id := Strip(tokenId);
    if !IsId(id) then InvalidToken
    else match SecretKey(secret)
      case None => InvalidSecret
      case Some(key) => Ok(TokenText(id, Signature(mac, key, id)))
  }

  // What stands before the first dot, or everything.
  function UpToDot(s: string): (r: string)
    ensures |r| <= |s| && s[..|r|] == r && (|r| < |s| ==> s[|r|] == '.')
  {
    if s == "" || s[0] == '.' then "" else [s[0]] + UpToDot(s[1..])
  }

  datatype Parts = NoMatch | Match(id: string, signature: string)

  // _TOKEN_PATTERN.fullmatch
  function MatchToken(text: string): Parts {
    if |text| < |PREFIX| || text[..|PREFIX|] != PREFIX then NoMatch
    else
      var rest := text[|PREFIX|..];
      var id := UpToDot(rest);
      if |id| == |rest| then NoMatch
      else
        var signature := rest[|id| + 1..];
        if IsId(id) && IsSignature(signature) then Match(id, signature) else NoMatch
  }

  // rsplit(".", 1)[1]
  function AfterLastDot(s: string): string {
    if s == "" || s[|s| - 1] == '.' then "" else AfterLastDot(s[..|s| - 1]) + [s[|s| - 1]]
  }

  function VerifyToken(mac: Mac, token: string, secret: string): TokenResult {
    match MatchToken(Strip(token))
    case NoMatch => InvalidToken
    case Match(id, signature) =>
      match FormatToken(mac, secret, id)
      case Ok(expected) => if signature == AfterLastDot(expected) then Ok(id) else InvalidToken
      case InvalidToken => InvalidToken
      case InvalidSecret => InvalidSecret
  }

  // ---- what the functions promise, written out ----------------------------------------------

  // What is taken off, on either side, is white space, and what is left has none at its ends.
  lemma {:induction false} StripLeftMeans(s: string) returns (k: nat)
    ensures k <= |s| && StripLeft(s) == s[k..] && forall i | 0 <= i < k :: IsSpace(s[i])
    ensures k == |s| || !IsSpace(s[k])
  {
    if s != "" && IsSpace(s[0]) {
      var j := StripLeftMeans(s[1..]);
      k := j + 1;
      assert forall i | 1 <= i < k :: s[i] == s[1..][i - 1];
    } else {
      k := 0;
    }
  }

  lemma {:induction false} StripRightMeans(s: string) returns (n: nat)
    ensures n <= |s| && StripRight(s) == s[..n] && forall i | n <= i < |s| :: IsSpace(s[i])
    ensures n == 0 || !IsSpace(s[n - 1])
  {
    if s != "" && IsSpace(s[|s| - 1]) {
      n := StripRightMeans(s[..|s| - 1]);
    } else {
      n := |s|;
    }
  }

  lemma StripMeans(s: string) returns (k: nat, n: nat)
    ensures k <= n <= |s| && Strip(s) == s[k..n]
    ensures forall i | 0 <= i < k || n <= i < |s| :: IsSpace(s[i])
    ensures k < n ==> !IsSpace(s[k]) && !IsSpace(s[n - 1])
  {
    k := StripLeftMeans(s);
    var m := StripRightMeans(s[k..]);
    n := k + m;
    assert s[k..][..m] == s[k..n];
    forall i | n <= i < |s| ensures IsSpace(s[i]) {
      assert s[i] == s[k..][i - k];
    }
  }

  /** A token is made exactly for an identifier of 24 to 96 characters of the alphabet and a secret that
      decodes to 32 bytes at least: the prefix, the identifier, a dot, and the MAC of both under the
      decoded secret. A bad identifier is reported before a bad secret. */
  lemma FormatMeans(mac: Mac, secret: string, tokenId: string)
    ensures var id, key := Strip(tokenId), Decode(Strip(secret));
            var idOk := 24 <= |id| <= 96 && forall c | c in id :: c in ALPHABET;
            var keyOk := key.Some? && |key.value| >= 32;
            && (FormatToken(mac, secret, tokenId) == InvalidToken <==> !idOk)
            && (FormatToken(mac, secret, tokenId) == InvalidSecret <==> idOk && !keyOk)
            && (idOk && keyOk ==> FormatToken(mac, secret, tokenId)
                                  == Ok("pit2." + id + "." + Encode(mac(key.value, "pit2." + id))))
  {
    var id := Strip(tokenId);
    forall c ensures IsDigit(c) <==> c in ALPHABET {
      DigitsAreAlphabet(c);
    }
    var signature := Encode(mac(match Decode(Strip(secret)) case Some(key) => key case None => [], "pit2." + id));
    assert "pit2." + (id + "." + signature) == "pit2." + id + "." + signature;
  }

  // ---- strip -----------------------------------------------------------------------------

  lemma DigitsAreNoSpace(s: string)
    requires AllDigits(s)
    ensures Strip(s) == s
  {
    if s != "" {
      assert s[0] in s && s[|s| - 1] in s;
    }
  }

  // ---- the two functions -----------------------------------------------------------------

  lemma {:induction false} UpToFirstDot(a: string, b: string)
    requires AllDigits(a)
    ensures UpToDot(a + "." + b) == a
  {
    var s := a + "." + b;
    if a == "" {
      assert s[0] == '.';
    } else {
      assert IsDigit(a[0]);
      assert s[0] == a[0];
      assert s[1..] == a[1..] + "." + b;
      UpToFirstDot(a[1..], b);
    }
  }

  lemma {:induction false} AfterDot(a: string, b: string)
    requires AllDigits(b)
    ensures AfterLastDot(a + "." + b) == b
  {
    var s := a + "." + b;
    if b == "" {
      assert s == a + ".";
    } else {
      assert IsDigit(b[|b| - 1]);
      assert s[|s| - 1] == b[|b| - 1];
      assert s[..|s| - 1] == a + "." + b[..|b| - 1];
      AfterDot(a, b[..|b| - 1]);
    }
  }

  lemma CutPrefix(rest: string)
    ensures |PREFIX + rest| >= |PREFIX| && (PREFIX + rest)[..|PREFIX|] == PREFIX && (PREFIX + rest)[|PREFIX|..] == rest
  {
  }

  lemma MatchOfParts(id: string, signature: string)
    requires IsId(id) && IsSignature(signature)
    ensures MatchToken(TokenText(id, signature)) == Match(id, signature)
  {
    var rest := id + "." + signature;
    CutPrefix(rest);
    UpToFirstDot(id, signature);
    assert |rest| > |id| && rest[|id| + 1..] == signature;
  }

  // Nothing is stripped from a token, and its signature stands behind its last dot.
  lemma TokenEnds(id: string, signature: string)
    requires IsSignature(signature)
    ensures Strip(TokenText(id, signature)) == TokenText(id, signature)
    ensures AfterLastDot(TokenText(id, signature)) == signature
    ensures |TokenText(id, signature)| == |PREFIX| + |id| + 1 + |signature|
  {
    var text := TokenText(id, signature);
    AfterDot(PREFIX + id, signature);
    assert text == PREFIX + id + "." + signature;
    assert text[0] == 'p' && text[|text| - 1] == signature[|signature| - 1];
    assert IsDigit(signature[|signature| - 1]);
  }

  lemma PartsOfMatch(text: string)
    requires MatchToken(text).Match?
    ensures var m := MatchToken(text); IsId(m.id) && IsSignature(m.signature) && text == TokenText(m.id, m.signature)
  {
    var rest := text[|PREFIX|..];
    var id := UpToDot(rest);
    assert rest == id + "." + rest[|id| + 1..];
    assert text == PREFIX + rest;
  }

  // A signature is one of 32 bytes: 43 characters, well within the bounds of the pattern.
  lemma SignatureShape(mac: Mac, key: Bytes, id: string)
    requires IsMac(mac)
    ensures IsSignature(Signature(mac, key, id)) && |Signature(mac, key, id)| == 43
  {
    EncodeShape(mac(key, PREFIX + id));
  }

  lemma FormatShape(mac: Mac, secret: string, id: string)
    requires IsMac(mac) && IsId(id) && SecretKey(secret).Some?
    ensures var s := Signature(mac, SecretKey(secret).value, id);
            FormatToken(mac, secret, id) == Ok(TokenText(id, s)) && AfterLastDot(TokenText(id, s)) == s && IsSignature(s)
  {
    DigitsAreNoSpace(id);
    SignatureShape(mac, SecretKey(secret).value, id);
    TokenEnds(id, Signature(mac, SecretKey(secret).value, id));
  }

  /** A token is accepted exactly when, stripped, it is the one that formatting its identifier gives;
      and it is that identifier that comes back. */
  lemma VerifiesExactlyTheFormatted(mac: Mac, token: string, secret: string, id: string)
    requires IsMac(mac)
    ensures VerifyToken(mac, token, secret) == Ok(id) <==> IsId(id) && FormatToken(mac, secret, id) == Ok(Strip(token))
  {
    var text := Strip(token);
    if IsId(id) && FormatToken(mac, secret, id) == Ok(text) {
      DigitsAreNoSpace(id);
      FormatShape(mac, secret, id);
      MatchOfParts(id, Signature(mac, SecretKey(secret).value, id));
    }
    if VerifyToken(mac, token, secret) == Ok(id) {
      PartsOfMatch(text);
      DigitsAreNoSpace(id);
      FormatShape(mac, secret, id);
    }
  }

  // What a new secret and a new identifier look like.
  lemma NewSecret(secretBytes: Bytes)
    requires |secretBytes| == SECRET_BYTES
    ensures |Encode(secretBytes)| == 43 && SecretKey(Encode(secretBytes)) == Some(secretBytes)
  {
    EncodeShape(secretBytes);
    DigitsAreNoSpace(Encode(secretBytes));
    DecodeOfEncode(secretBytes);
  }

  lemma NewId(idBytes: Bytes)
    requires |idBytes| == ID_BYTES
    ensures |Encode(idBytes)| == 32 && IsId(Encode(idBytes))
  {
    EncodeShape(idBytes);
  }

  /** For every secret that new_signing_secret can make, an issued token fits the pattern, with an
      identifier of 32 and a signature of 43 characters, and verifies back to its identifier. */
  lemma IssuedTokenVerifies(mac: Mac, secretBytes: Bytes, idBytes: Bytes)
    requires IsMac(mac) && |secretBytes| == SECRET_BYTES && |idBytes| == ID_BYTES
    ensures var secret, id := Encode(secretBytes), Encode(idBytes);
            var r, signature := FormatToken(mac, secret, id), Signature(mac, secretBytes, id);
            && |secret| == 43 && |id| == 32 && |signature| == 43 && SecretKey(secret) == Some(secretBytes)
            && r == Ok(TokenText(id, signature)) && |r.value| == 5 + 32 + 1 + 43
            && MatchToken(r.value) == Match(id, signature)
            && VerifyToken(mac, r.value, secret) == Ok(id)
  {
    var secret, id := Encode(secretBytes), Encode(idBytes);
    NewSecret(secretBytes);
    NewId(idBytes);
    var signature := Signature(mac, secretBytes, id);
    SignatureShape(mac, secretBytes, id);
    FormatShape(mac, secret, id);
    MatchOfParts(id, signature);
    TokenEnds(id, signature);
    VerifiesExactlyTheFormatted(mac, TokenText(id, signature), secret, id);
  }

  /** A token that verifies under two secrets is a collision: the MAC of its text is the same under
      both keys. */
  lemma TwoSecretsMeanACollision(mac: Mac, token: string, secret: string, other: string)
    requires IsMac(mac)
    requires VerifyToken(mac, token, secret).Ok? && VerifyToken(mac, token, other).Ok?
    ensures SecretKey(secret).Some? && SecretKey(other).Some?
    ensures var text := PREFIX + VerifyToken(mac, token, secret).value;
            mac(SecretKey(secret).value, text) == mac(SecretKey(other).value, text)
  {
    var id := MatchToken(Strip(token)).id;
    PartsOfMatch(Strip(token));
    DigitsAreNoSpace(id);
    FormatShape(mac, secret, id);
    FormatShape(mac, other, id);
    DecodeOfEncode(mac(SecretKey(secret).value, PREFIX + id));
    DecodeOfEncode(mac(SecretKey(other).value, PREFIX + id));
  }
}
