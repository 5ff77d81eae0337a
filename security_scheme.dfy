/**
 * The Security Scheme Object of AsyncAPI 3.0.0: a tagged union whose `type`
 * field selects the variant, decoded and encoded by hand in
 * Sources/AsyncAPIGenerator/AsyncAPI.swift, together with the OAuth2 flow
 * records it carries.
 */
module SecuritySchemes {
  import opened Wrappers
  import opened JsonValue

  datatype OAuth2Flow = OAuth2Flow(
    authorizationUrl: Option<string>,
    tokenUrl: Option<string>,
    refreshUrl: Option<string>,
    scopes: map<string, string>)

  datatype OAuth2Flows = OAuth2Flows(
    implicit: Option<OAuth2Flow>,
    password: Option<OAuth2Flow>,
    clientCredentials: Option<OAuth2Flow>,
    authorizationCode: Option<OAuth2Flow>)

  /** The declared cases; `keyIn` is the API key's `in` field. */
  datatype SecurityScheme =
    | UserPassword(description: Option<string>, scheme: string)
    | ApiKey(description: Option<string>, name: string, keyIn: string)
    | X509(description: Option<string>)
    | SymmetricEncryption(description: Option<string>, scheme: string)
    | AsymmetricEncryption(description: Option<string>, scheme: string)
    | HttpSecurityScheme(description: Option<string>, scheme: string, bearerFormat: Option<string>)
    | OAuth2FlowsScheme(description: Option<string>, flows: OAuth2Flows)
    | OpenIdConnect(description: Option<string>, openIdConnectUrl: string)
    | SaslSecurityScheme(description: Option<string>, saslType: string)

  /** The four `type` strings that decode to the SASL case. */
  const SaslTags: set<string> := {"scramSha256", "scramSha512", "plain", "gssapi"}

  /** Every `type` string the decoder recognises. */
  const KnownTags: set<string> :=
    {"userPassword", "apiKey", "X509", "symmetricEncryption", "asymmetricEncryption",
     "http", "oauth2", "openIdConnect"} + SaslTags

  /** The variant-specific fields that must be present, by `type` string. */
  const RequiredFields: set<(string, string)> :=
    {("userPassword", "scheme"), ("apiKey", "name"), ("apiKey", "in"),
     ("symmetricEncryption", "scheme"), ("asymmetricEncryption", "scheme"),
     ("http", "scheme"), ("oauth2", "flows"), ("openIdConnect", "openIdConnectUrl")}

  // ---------------------------------------------------------------------------
  // OAuth2 flows: synthesized Codable.
  // ---------------------------------------------------------------------------

  function EncodeScopes(scopes: map<string, string>): Json {
    Object(scopes, Str)
  }

  function EncodeFlow(f: OAuth2Flow): Json {
    var m1 := Put(map[], "authorizationUrl", OptString(f.authorizationUrl));
    var m2 := Put(m1, "tokenUrl", OptString(f.tokenUrl));
    var m3 := Put(m2, "refreshUrl", OptString(f.refreshUrl));
    JObject(m3["scopes" := EncodeScopes(f.scopes)])
  }

  function DecodeScopes(o: map<string, Json>): Decoded<map<string, string>> {
    if "scopes" !in o then Err(KeyNotFound("scopes"))
    else if o["scopes"].JNull? then Err(ValueNotFound("scopes"))
    else if !o["scopes"].JObject? || !AllStrings(o["scopes"].fields) then Err(TypeMismatch("scopes"))
    else Ok(StringMapOf(o["scopes"].fields))
  }

  function DecodeFlow(j: Json): Decoded<OAuth2Flow> {
    var o :- Container(j);
    var authorizationUrl :- DecodeStringIfPresent(o, "authorizationUrl");
    var tokenUrl :- DecodeStringIfPresent(o, "tokenUrl");
    var refreshUrl :- DecodeStringIfPresent(o, "refreshUrl");
    var scopes :- DecodeScopes(o);
    Ok(OAuth2Flow(authorizationUrl, tokenUrl, refreshUrl, scopes))
  }

  function EncodeFlows(f: OAuth2Flows): Json {
    var m1 := Put(map[], "implicit", OptOf(f.implicit, EncodeFlow));
    var m2 := Put(m1, "password", OptOf(f.password, EncodeFlow));
    var m3 := Put(m2, "clientCredentials", OptOf(f.clientCredentials, EncodeFlow));
    JObject(Put(m3, "authorizationCode", OptOf(f.authorizationCode, EncodeFlow)))
  }

  function DecodeFlows(j: Json): Decoded<OAuth2Flows> {
    var o :- Container(j);
    var implicit :- DecodeIfPresent(o, "implicit", DecodeFlow);
    var password :- DecodeIfPresent(o, "password", DecodeFlow);
    var clientCredentials :- DecodeIfPresent(o, "clientCredentials", DecodeFlow);
    var authorizationCode :- DecodeIfPresent(o, "authorizationCode", DecodeFlow);
    Ok(OAuth2Flows(implicit, password, clientCredentials, authorizationCode))
  }

  lemma FlowRoundTrip(f: OAuth2Flow)
    ensures DecodeFlow(EncodeFlow(f)) == Ok(f)
  {
    var o := EncodeFlow(f).fields;
    assert o["scopes"] == EncodeScopes(f.scopes);
    assert StringMapOf(EncodeScopes(f.scopes).fields) == f.scopes;
    assert DecodeScopes(o) == Ok(f.scopes);
    assert DecodeStringIfPresent(o, "authorizationUrl") == Ok(f.authorizationUrl);
    assert DecodeStringIfPresent(o, "tokenUrl") == Ok(f.tokenUrl);
    assert DecodeStringIfPresent(o, "refreshUrl") == Ok(f.refreshUrl);
  }

  lemma OptFlowRoundTrip(o: map<string, Json>, key: string, f: Option<OAuth2Flow>)
    requires key in o <==> f.Some?
    requires f.Some? ==> o[key] == EncodeFlow(f.value)
    ensures DecodeIfPresent(o, key, DecodeFlow) == Ok(f)
  {
    if f.Some? {
      FlowRoundTrip(f.value);
    }
  }

  /** Each of the four flows is read back from the flows encoding. */
  lemma FlowsEntries(f: OAuth2Flows)
    ensures EncodeFlows(f).JObject?
    ensures DecodeIfPresent(EncodeFlows(f).fields, "implicit", DecodeFlow) == Ok(f.implicit)
    ensures DecodeIfPresent(EncodeFlows(f).fields, "password", DecodeFlow) == Ok(f.password)
    ensures DecodeIfPresent(EncodeFlows(f).fields, "clientCredentials", DecodeFlow) == Ok(f.clientCredentials)
    ensures DecodeIfPresent(EncodeFlows(f).fields, "authorizationCode", DecodeFlow) == Ok(f.authorizationCode)
  {
    OptFlowRoundTrip(EncodeFlows(f).fields, "implicit", f.implicit);
    OptFlowRoundTrip(EncodeFlows(f).fields, "password", f.password);
    OptFlowRoundTrip(EncodeFlows(f).fields, "clientCredentials", f.clientCredentials);
    OptFlowRoundTrip(EncodeFlows(f).fields, "authorizationCode", f.authorizationCode);
  }

  /** The OAuth2 flows record round-trips through its encoding. */
  lemma FlowsRoundTrip(f: OAuth2Flows)
    ensures DecodeFlows(EncodeFlows(f)) == Ok(f)
  {
    FlowsEntries(f);
  }

  // ---------------------------------------------------------------------------
  // The security scheme: `init(from:)` and `encode(to:)`.
  // ---------------------------------------------------------------------------

  function UnknownTypeMessage(t: string): string {
    "Unknown security scheme type: " + t
  }

  /**
   * `init(from:)`: reads `type`, then `description`, then switches on the
   * type string, reading the variant's own fields; an unknown type throws.
   */
  function Decode(j: Json): Decoded<SecurityScheme> {
    var o :- Container(j);
    var t :- DecodeString(o, "type");
    var description :- DecodeStringIfPresent(o, "description");
    DecodeVariant(o, t, description)
  }

  /** The `switch` on the type string, reading the variant's own fields. */
  function DecodeVariant(o: map<string, Json>, t: string, description: Option<string>): Decoded<SecurityScheme> {
    if t == "userPassword" then
      var scheme :- DecodeString(o, "scheme");
      Ok(UserPassword(description, scheme))
    else if t == "apiKey" then
      var name :- DecodeString(o, "name");
      var keyIn :- DecodeString(o, "in");
      Ok(ApiKey(description, name, keyIn))
    else if t == "X509" then
      Ok(X509(description))
    else if t == "symmetricEncryption" then
      var scheme :- DecodeString(o, "scheme");
      Ok(SymmetricEncryption(description, scheme))
    else if t == "asymmetricEncryption" then
      var scheme :- DecodeString(o, "scheme");
      Ok(AsymmetricEncryption(description, scheme))
    else if t == "http" then
      var scheme :- DecodeString(o, "scheme");
      var bearerFormat :- DecodeStringIfPresent(o, "bearerFormat");
      Ok(HttpSecurityScheme(description, scheme, bearerFormat))
    else if t == "oauth2" then
      if "flows" !in o then Err(KeyNotFound("flows"))
      else
        var flows :- DecodeFlows(o["flows"]);
        Ok(OAuth2FlowsScheme(description, flows))
    else if t == "openIdConnect" then
      var url :- DecodeString(o, "openIdConnectUrl");
      Ok(OpenIdConnect(description, url))
    else if t in SaslTags then
      Ok(SaslSecurityScheme(description, t))
    else
      Err(DataCorrupted("type", UnknownTypeMessage(t)))
  }

  /** The `type` string each variant's encoder writes; the SASL case writes its stored string. */
  function Discriminator(s: SecurityScheme): string {
    match s
    case UserPassword(_, _) => "userPassword"
    case ApiKey(_, _, _) => "apiKey"
    case X509(_) => "X509"
    case SymmetricEncryption(_, _) => "symmetricEncryption"
    case AsymmetricEncryption(_, _) => "asymmetricEncryption"
    case HttpSecurityScheme(_, _, _) => "http"
    case OAuth2FlowsScheme(_, _) => "oauth2"
    case OpenIdConnect(_, _) => "openIdConnect"
    case SaslSecurityScheme(_, t) => t
  }

  /** The entries every case writes: the discriminator and, when present, the description. */
  function CommonFields(s: SecurityScheme): (m: map<string, Json>)
    ensures m.Keys <= {"type", "description"}
    ensures "type" in m && m["type"] == JString(Discriminator(s))
    ensures ("description" in m) <==> s.description.Some?
    ensures s.description.Some? ==> m["description"] == JString(s.description.value)
  {
    Put(map["type" := JString(Discriminator(s))], "description", OptString(s.description))
  }

  /** The entries specific to each case; an absent bearer format is omitted. */
  function VariantFields(s: SecurityScheme): (m: map<string, Json>)
    ensures "type" !in m && "description" !in m
  {
    match s
    case UserPassword(_, scheme) => map["scheme" := JString(scheme)]
    case ApiKey(_, name, keyIn) => map["name" := JString(name), "in" := JString(keyIn)]
    case X509(_) => map[]
    case SymmetricEncryption(_, scheme) => map["scheme" := JString(scheme)]
    case AsymmetricEncryption(_, scheme) => map["scheme" := JString(scheme)]
    case HttpSecurityScheme(_, scheme, bearerFormat) =>
      Put(map["scheme" := JString(scheme)], "bearerFormat", OptString(bearerFormat))
    case OAuth2FlowsScheme(_, flows) => map["flows" := EncodeFlows(flows)]
    case OpenIdConnect(_, url) => map["openIdConnectUrl" := JString(url)]
    case SaslSecurityScheme(_, _) => map[]
  }

  /** `encode(to:)`: one keyed container per case; an absent description is omitted. */
  function Encode(s: SecurityScheme): (j: Json)
    ensures j.JObject? && "type" in j.fields && j.fields["type"] == JString(Discriminator(s))
    ensures ("description" in j.fields) <==> s.description.Some?
    ensures s.description.Some? ==> j.fields["description"] == JString(s.description.value)
  {
    JObject(VariantFields(s) + CommonFields(s))
  }

  /** A variant entry is read back unchanged from the full encoding. */
  lemma VariantFieldLookup(s: SecurityScheme, k: string)
    requires k in VariantFields(s)
    ensures k in Encode(s).fields && Encode(s).fields[k] == VariantFields(s)[k]
  {
    assert k != "type" && k != "description";
  }

  // ---------------------------------------------------------------------------
  // Properties.
  // ---------------------------------------------------------------------------

  /** Each non-SASL encoder writes a discriminator its decoder recognises, and a different one per variant. */
  lemma DiscriminatorsAgree(s: SecurityScheme, s': SecurityScheme)
    ensures !s.SaslSecurityScheme? ==> Discriminator(s) in KnownTags - SaslTags
    ensures !s.SaslSecurityScheme? && !s'.SaslSecurityScheme? && Discriminator(s) == Discriminator(s') ==>
      s.X509? == s'.X509? && s.HttpSecurityScheme? == s'.HttpSecurityScheme? && s.UserPassword? == s'.UserPassword?
      && s.ApiKey? == s'.ApiKey? && s.SymmetricEncryption? == s'.SymmetricEncryption?
      && s.AsymmetricEncryption? == s'.AsymmetricEncryption? && s.OAuth2FlowsScheme? == s'.OAuth2FlowsScheme?
      && s.OpenIdConnect? == s'.OpenIdConnect?
  {
  }

  /** An object whose `type` string is outside the recognised set fails to decode. */
  lemma UnknownTypeFails(o: map<string, Json>)
    requires "type" in o && o["type"].JString? && o["type"].str !in KnownTags
    ensures Decode(JObject(o)).Err?
    ensures DecodeStringIfPresent(o, "description").Ok? ==>
      Decode(JObject(o)) == Err(DataCorrupted("type", UnknownTypeMessage(o["type"].str)))
  {
  }

  /** Each of the four SASL type strings decodes to the SASL case keeping that string. */
  lemma SaslTagsDecode(o: map<string, Json>)
    requires "type" in o && o["type"].JString? && o["type"].str in SaslTags
    requires DecodeStringIfPresent(o, "description").Ok?
    ensures Decode(JObject(o)) ==
      Ok(SaslSecurityScheme(DecodeStringIfPresent(o, "description").value, o["type"].str))
  {
  }

  /** A variant's required field missing makes the decode fail with `keyNotFound` for that field. */
  lemma MissingRequiredFieldFails(o: map<string, Json>, tag: string, field: string)
    requires (tag, field) in RequiredFields
    requires "type" in o && o["type"] == JString(tag)
    requires field !in o
    requires DecodeStringIfPresent(o, "description").Ok?
    ensures Decode(JObject(o)).Err?
    ensures field != "in" || ("name" in o && o["name"].JString?) ==> Decode(JObject(o)) == Err(KeyNotFound(field))
  {
  }

  /** A null where an object is required is a missing value (`valueNotFound`), not a type mismatch. */
  lemma NullIsValueNotFound(o: map<string, Json>, description: Option<string>)
    requires "flows" in o && o["flows"].JNull?
    ensures Decode(JNull) == Err(ValueNotFound(""))
    ensures DecodeVariant(o, "oauth2", description) == Err(ValueNotFound(""))
    ensures DecodeFlow(JObject(map["scopes" := JNull])) == Err(ValueNotFound("scopes"))
  {
  }

  /** An absent description or bearer format is not written, and decodes back to none. */
  lemma AbsentOptionalsOmitted(description: Option<string>, scheme: string, bearerFormat: Option<string>)
    ensures var j := Encode(HttpSecurityScheme(description, scheme, bearerFormat));
      && ("description" in j.fields <==> description.Some?)
      && ("bearerFormat" in j.fields <==> bearerFormat.Some?)
      && Decode(j) == Ok(HttpSecurityScheme(description, scheme, bearerFormat))
  {
    var s := HttpSecurityScheme(description, scheme, bearerFormat);
    RoundTrip(s);
    assert "bearerFormat" in VariantFields(s) <==> bearerFormat.Some?;
    assert "bearerFormat" in Encode(s).fields <==> "bearerFormat" in VariantFields(s);
  }

  /**
   * decode(encode(s)) == s for every variant except a SASL scheme whose stored
   * type string is not one of the four SASL tags.
   */
  lemma RoundTrip(s: SecurityScheme)
    ensures Decode(Encode(s)) == Ok(s) <==> !s.SaslSecurityScheme? || s.saslType in SaslTags
  {
    HeaderRoundTrip(s);
    if s.SaslSecurityScheme? {
      if s.saslType !in SaslTags {
        SaslOutsideTagsDoesNotRoundTrip(s.description, s.saslType);
      }
    } else {
      VariantRoundTrip(s);
    }
  }

  /** The discriminator and description are read back, leaving the variant's own fields. */
  lemma HeaderRoundTrip(s: SecurityScheme)
    ensures Decode(Encode(s)) == DecodeVariant(Encode(s).fields, Discriminator(s), s.description)
  {
    var o := Encode(s).fields;
    assert DecodeString(o, "type") == Ok(Discriminator(s));
    assert DecodeStringIfPresent(o, "description") == Ok(s.description);
  }

  /** Every non-SASL variant's own fields are read back by the branch its discriminator selects. */
  lemma VariantRoundTrip(s: SecurityScheme)
    requires !s.SaslSecurityScheme?
    ensures DecodeVariant(Encode(s).fields, Discriminator(s), s.description) == Ok(s)
  {
    var o := Encode(s).fields;
    var v := VariantFields(s);
    forall k | k in v
      ensures k in o && o[k] == v[k]
    {
      VariantFieldLookup(s, k);
    }
    match s
    case UserPassword(_, scheme) => assert v["scheme"] == JString(scheme);
    case ApiKey(_, name, keyIn) => assert v["name"] == JString(name) && v["in"] == JString(keyIn);
    case X509(_) =>
    case SymmetricEncryption(_, scheme) => assert v["scheme"] == JString(scheme);
    case AsymmetricEncryption(_, scheme) => assert v["scheme"] == JString(scheme);
    case HttpSecurityScheme(_, scheme, bearerFormat) =>
      assert v["scheme"] == JString(scheme);
      assert "bearerFormat" in o <==> "bearerFormat" in v;
      assert DecodeStringIfPresent(o, "bearerFormat") == Ok(bearerFormat);
    case OAuth2FlowsScheme(_, flows) =>
      assert v["flows"] == EncodeFlows(flows);
      FlowsRoundTrip(flows);
    case OpenIdConnect(_, url) => assert v["openIdConnectUrl"] == JString(url);
  }

  /** A SASL scheme holding a type string outside the four tags never decodes back to itself. */
  lemma SaslOutsideTagsDoesNotRoundTrip(d: Option<string>, t: string)
    requires t !in SaslTags
    ensures Decode(Encode(SaslSecurityScheme(d, t))) != Ok(SaslSecurityScheme(d, t))
  {
    HeaderRoundTrip(SaslSecurityScheme(d, t));
  }
}
