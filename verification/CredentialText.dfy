/**
 The text formats of device identity: identifiers, canonical secrets, enrollment tokens and bearers, with the three
 validators that must agree on them (the Go agent, the Python backend and the Python packaging script).
 */
module CredentialText {
  import opened Wrappers
  import opened Base64Url
  import Text

  datatype Material = Material(id: string, secret: string)

  // ---- Regular expressions of the source, as predicates ----

  predicate AllDigits(text: string) {
    forall i | 0 <= i < |text| :: IsDigit(text[i])
  }

  predicate IsPublicId(prefix: string, text: string) {
    && |prefix| + 16 <= |text| <= |prefix| + 64
    && text[..|prefix|] == prefix
    && AllDigits(text[|prefix|..])
  }

  predicate IsCredentialId(text: string) { IsPublicId("dc_", text) }

  predicate IsEndpointId(text: string) { IsPublicId("ep_", text) }

  predicate IsAlphanumeric(c: char) {
    'A' <= c <= 'Z' || 'a' <= c <= 'z' || '0' <= c <= '9'
  }

  predicate IsInstallationId(text: string) {
    && 16 <= |text| <= 128
    && IsAlphanumeric(text[0])
    && (forall i | 1 <= i < |text| :: IsDigit(text[i]) || text[i] == '.' || text[i] == ':')
  }

  predicate IsLowerHex(c: char) {
    '0' <= c <= '9' || 'a' <= c <= 'f'
  }

  predicate IsTokenId(text: string) {
    |text| == 35 && text[..3] == "et_" && forall i | 3 <= i < 35 :: IsLowerHex(text[i])
  }

  predicate IsSecretText(text: string) {
    43 <= |text| <= 128 && AllDigits(text)
  }

  const TOKEN_PREFIX := "sha_enroll."
  const DEVICE_PREFIX := "sha_device."

  // ---- Canonical secrets ----

  // The language all three validators are meant to accept.
  ghost predicate IsCanonicalSecret(text: string) {
    exists raw: seq<Byte> :: 32 <= |raw| <= 96 && text == Encode(raw)
  }

  // The number of bytes of the text in UTF-8, which is what Go's len counts.
  function ByteLength(text: string): nat {
    if text == "" then 0
    else
      var c := text[0] as int;
      (if c < 0x80 then 1 else if c < 0x800 then 2 else if c < 0x10000 then 3 else 4) + ByteLength(text[1..])
  }

  // The agent's validCanonicalSecret.
  predicate GoValidSecret(value: string) {
    if ByteLength(value) < 43 || ByteLength(value) > 128 || '=' in value then false
    else
      match GoDecode(value)
      case None => false
      case Some(raw) => 32 <= |raw| && Encode(raw) == value
  }

  // The backend's is_canonical_secret.
  predicate BackendValidSecret(value: string) {
    if !(43 <= |value| <= 128) then false
    else
      match PythonDecode(value)
      case None => false
      case Some(raw) => 32 <= |raw| && Encode(raw) == value
  }

  lemma {:induction false} DigitsAreSingleBytes(text: string)
    requires AllDigits(text)
    ensures ByteLength(text) == |text|
  {
    if text != "" {
      DigitsAreSingleBytes(text[1..]);
    }
  }

  lemma GoSecretsAreCanonical(value: string)
    ensures GoValidSecret(value) <==> IsCanonicalSecret(value)
  {
    if GoValidSecret(value) {
      var raw := GoDecode(value).value;
      DigitsAreSingleBytes(value);
      assert 32 <= |raw| <= 96 && value == Encode(raw);
    }
    if IsCanonicalSecret(value) {
      var raw: seq<Byte> :| 32 <= |raw| <= 96 && value == Encode(raw);
      DigitsAreSingleBytes(value);
      GoDecodesEncoding(raw);
    }
  }

  lemma BackendSecretsAreCanonical(value: string)
    ensures BackendValidSecret(value) <==> IsCanonicalSecret(value)
  {
    if BackendValidSecret(value) {
      var raw := PythonDecode(value).value;
      assert 32 <= |raw| <= 96 && value == Encode(raw);
    }
    if IsCanonicalSecret(value) {
      var raw: seq<Byte> :| 32 <= |raw| <= 96 && value == Encode(raw);
      PythonDecodesEncoding(raw);
    }
  }

  // ---- Device credentials and their bearers ----

  predicate ValidMaterial(material: Material) {
    IsCredentialId(material.id) && GoValidSecret(material.secret)
  }

  function Bearer(material: Material): string {
    DEVICE_PREFIX + material.id + "." + material.secret
  }

  // The backend's parse_device_credential. The identifier's alphabet has no dot, so the first dot after the prefix
  // is the only place where the pattern can divide the rest.
  function ParseDeviceCredential(value: string): Option<Material> {
    if |value| < |DEVICE_PREFIX| || value[..|DEVICE_PREFIX|] != DEVICE_PREFIX then None
    else ParseIdAndSecret(value[|DEVICE_PREFIX|..])
  }

  function ParseIdAndSecret(rest: string): Option<Material> {
    var dot := Text.IndexOf(rest, '.');
    if dot == |rest| then None else MaterialOf(rest[..dot], rest[dot + 1..])
  }

  function MaterialOf(id: string, secret: string): Option<Material> {
    if IsCredentialId(id) && IsSecretText(secret) && BackendValidSecret(secret) then Some(Material(id, secret)) else None
  }

  lemma PublicIdHasNoDot(prefix: string, text: string)
    requires IsPublicId(prefix, text) && '.' !in prefix
    ensures '.' !in text
  {
    assert text == text[..|prefix|] + text[|prefix|..];
  }

  lemma CanonicalSecretText(secret: string)
    requires IsCanonicalSecret(secret)
    ensures IsSecretText(secret) && '.' !in secret
  {
  }

  lemma DotAfterId(id: string, secret: string)
    requires '.' !in id
    ensures var rest := id + "." + secret;
            Text.IndexOf(rest, '.') == |id| && rest[..|id|] == id && rest[|id| + 1..] == secret
  {
    var rest := id + "." + secret;
    forall k | 0 <= k < |id| ensures rest[k] != '.' {
      assert rest[k] == id[k] && id[k] in id;
    }
    Text.IndexOfIsFirst(rest, '.', |id|);
  }

  lemma ParseOfPieces(id: string, secret: string)
    requires '.' !in id
    ensures ParseIdAndSecret(id + "." + secret) == MaterialOf(id, secret)
  {
    DotAfterId(id, secret);
  }

  lemma ParseOfPrefixedPieces(id: string, secret: string)
    requires '.' !in id
    ensures ParseDeviceCredential(Bearer(Material(id, secret))) == MaterialOf(id, secret)
  {
    var value, rest := Bearer(Material(id, secret)), id + "." + secret;
    assert value[..|DEVICE_PREFIX|] == DEVICE_PREFIX && value[|DEVICE_PREFIX|..] == rest;
    ParseOfPieces(id, secret);
  }

  lemma ValidMaterialIsParsed(material: Material)
    requires ValidMaterial(material)
    ensures MaterialOf(material.id, material.secret) == Some(material) && '.' !in material.id
  {
    GoSecretsAreCanonical(material.secret);
    BackendSecretsAreCanonical(material.secret);
    CanonicalSecretText(material.secret);
    PublicIdHasNoDot("dc_", material.id);
  }

  // Every credential the agent accepts, or generates, is read back from its bearer unchanged.
  lemma ParseOfBearer(material: Material)
    requires ValidMaterial(material)
    ensures ParseDeviceCredential(Bearer(material)) == Some(material)
  {
    ValidMaterialIsParsed(material);
    ParseOfPrefixedPieces(material.id, material.secret);
  }

  // Everything the parser accepts is the bearer of what it returns, and the agent would accept it too.
  lemma BearerOfParse(value: string)
    requires ParseDeviceCredential(value).Some?
    ensures Bearer(ParseDeviceCredential(value).value) == value
    ensures ValidMaterial(ParseDeviceCredential(value).value)
  {
    var rest := value[|DEVICE_PREFIX|..];
    var dot := Text.IndexOf(rest, '.');
    assert GoValidSecret(rest[dot + 1..]) by {
      BackendSecretsAreCanonical(rest[dot + 1..]);
      GoSecretsAreCanonical(rest[dot + 1..]);
    }
    PiecesMakeBearer(value, rest, dot);
  }

  lemma PiecesMakeBearer(value: string, rest: string, dot: nat)
    requires |value| >= |DEVICE_PREFIX| && value[..|DEVICE_PREFIX|] == DEVICE_PREFIX && rest == value[|DEVICE_PREFIX|..]
    requires dot < |rest| && rest[dot] == '.'
    ensures DEVICE_PREFIX + rest[..dot] + "." + rest[dot + 1..] == value
  {
    assert rest == rest[..dot] + "." + rest[dot + 1..];
    assert value == DEVICE_PREFIX + rest;
  }

  // generatePublicID and randomBase64URL, over the bytes the random source returned.
  function GeneratedId(prefix: string, random: seq<Byte>): string {
    prefix + Encode(random)
  }

  function GeneratedMaterial(idBytes: seq<Byte>, secretBytes: seq<Byte>): Material {
    Material(GeneratedId("dc_", idBytes), Encode(secretBytes))
  }

  lemma GeneratedMaterialIsValid(idBytes: seq<Byte>, secretBytes: seq<Byte>)
    requires |idBytes| == 24 && |secretBytes| == 32
    ensures ValidMaterial(GeneratedMaterial(idBytes, secretBytes))
    ensures ParseDeviceCredential(Bearer(GeneratedMaterial(idBytes, secretBytes))) ==
            Some(GeneratedMaterial(idBytes, secretBytes))
  {
    assert IsCanonicalSecret(Encode(secretBytes));
    GoSecretsAreCanonical(Encode(secretBytes));
    ParseOfBearer(GeneratedMaterial(idBytes, secretBytes));
  }

  lemma GeneratedInstallationIdIsValid(random: seq<Byte>)
    requires |random| == 24
    ensures IsInstallationId(GeneratedId("si_", random))
  {
  }

  // ---- Enrollment tokens ----

  function TokenText(id: string, secret: string): string {
    TOKEN_PREFIX + id + "." + secret
  }

  // The fixed-width part of the token pattern: prefix, identifier and dot.
  predicate MatchesToken(value: string) {
    && |value| >= 47
    && value[..11] == TOKEN_PREFIX
    && IsTokenId(value[11..46])
    && value[46] == '.'
    && IsSecretText(value[47..])
  }

  // The agent's validEnrollmentToken.
  predicate GoValidToken(value: string) {
    && MatchesToken(value)
    && var parts := Text.Split(value, '.');
       |parts| == 3 && GoValidSecret(parts[2])
  }

  // The backend's parse_enrollment_token.
  function ParseEnrollmentToken(value: string): Option<(string, string)> {
    if MatchesToken(value) && BackendValidSecret(value[47..]) then Some((value[11..46], value[47..])) else None
  }

  datatype TokenError = BadFormat | BadBase64 | NotCanonical

  // The packaging script's canonical_token.
  function CanonicalToken(value: string): Result<(string, string), TokenError> {
    if !MatchesToken(value) then Failure(BadFormat)
    else
      match PythonDecode(value[47..])
      case None => Failure(BadBase64)
      case Some(raw) =>
        if |raw| < 32 || Encode(raw) != value[47..] then Failure(NotCanonical) else Success((value[11..46], value))
  }

  ghost predicate IsToken(value: string) {
    exists id, secret :: IsTokenId(id) && IsCanonicalSecret(secret) && value == TokenText(id, secret)
  }

  lemma TokenParts(id: string, secret: string)
    requires IsTokenId(id) && IsSecretText(secret)
    ensures var value := TokenText(id, secret);
            && MatchesToken(value) && value[11..46] == id && value[47..] == secret
            && Text.Split(value, '.') == ["sha_enroll", id, secret]
  {
    var parts := ["sha_enroll", id, secret];
    assert '.' !in id by { assert id == id[..3] + id[3..]; }
    var value := TokenText(id, secret);
    assert value[..11] == TOKEN_PREFIX && value[11..46] == id && value[47..] == secret;
    assert value == Text.Join(parts, '.') by {
      assert parts[1..] == [id, secret] && [id, secret][1..] == [secret];
      assert Text.Join([id, secret], '.') == id + ['.'] + secret;
      assert Text.Join(parts, '.') == "sha_enroll" + ['.'] + (id + ['.'] + secret);
    }
    Text.SplitOfJoin(parts, '.');
  }

  lemma MatchedTokenIsItsParts(value: string)
    requires MatchesToken(value)
    ensures value == TokenText(value[11..46], value[47..])
  {
  }

  // The three programs accept the same enrollment tokens.
  lemma TokensThreeWays(value: string)
    ensures GoValidToken(value) <==> IsToken(value)
    ensures ParseEnrollmentToken(value).Some? <==> IsToken(value)
    ensures CanonicalToken(value).Success? <==> IsToken(value)
  {
    if MatchesToken(value) {
      var id, secret := value[11..46], value[47..];
      MatchedTokenIsItsParts(value);
      TokenParts(id, secret);
      GoSecretsAreCanonical(secret);
      BackendSecretsAreCanonical(secret);
      assert IsToken(value) <== IsCanonicalSecret(secret);
    }
    if IsToken(value) {
      var id, secret :| IsTokenId(id) && IsCanonicalSecret(secret) && value == TokenText(id, secret);
      CanonicalSecretText(secret);
      TokenParts(id, secret);
      GoSecretsAreCanonical(secret);
      BackendSecretsAreCanonical(secret);
    }
  }

  // The backend reads from a bearer exactly the two parts it was printed from.
  lemma ParsedTokenIff(value: string, id: string, secret: string)
    ensures ParseEnrollmentToken(value) == Some((id, secret)) <==>
            value == TokenText(id, secret) && IsTokenId(id) && IsCanonicalSecret(secret)
  {
    if ParseEnrollmentToken(value) == Some((id, secret)) {
      MatchedTokenIsItsParts(value);
      BackendSecretsAreCanonical(secret);
    }
    if value == TokenText(id, secret) && IsTokenId(id) && IsCanonicalSecret(secret) {
      CanonicalSecretText(secret);
      TokenParts(id, secret);
      BackendSecretsAreCanonical(secret);
    }
  }

  // The script's validator accepts exactly the canonical secrets inside a token, as the other two do on their own.
  lemma SecretsThreeWays(id: string, secret: string)
    requires IsTokenId(id)
    ensures GoValidSecret(secret) <==> IsCanonicalSecret(secret)
    ensures BackendValidSecret(secret) <==> IsCanonicalSecret(secret)
    ensures CanonicalToken(TokenText(id, secret)).Success? <==> IsCanonicalSecret(secret)
  {
    GoSecretsAreCanonical(secret);
    BackendSecretsAreCanonical(secret);
    TokensThreeWays(TokenText(id, secret));
    if IsCanonicalSecret(secret) {
      assert IsToken(TokenText(id, secret));
    }
    if CanonicalToken(TokenText(id, secret)).Success? {
      assert TokenText(id, secret)[47..] == secret;
    }
  }

  // The script returns the token itself, with the identifier in it.
  lemma CanonicalTokenIff(value: string, id: string)
    ensures CanonicalToken(value) == Success((id, value)) <==>
            exists secret :: IsTokenId(id) && IsCanonicalSecret(secret) && value == TokenText(id, secret)
    ensures CanonicalToken(value).Success? ==> CanonicalToken(value).value.1 == value
  {
    TokensThreeWays(value);
    if CanonicalToken(value) == Success((id, value)) {
      MatchedTokenIsItsParts(value);
      SecretsThreeWays(id, value[47..]);
      assert value == TokenText(id, value[47..]);
    }
    if secret :| IsTokenId(id) && IsCanonicalSecret(secret) && value == TokenText(id, secret) {
      CanonicalSecretText(secret);
      TokenParts(id, secret);
    }
  }
}
