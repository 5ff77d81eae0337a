/**
 * The AsyncAPI 3.0.0 document model of Sources/AsyncAPIGenerator/AsyncAPI.swift:
 * immutable records whose optional fields are omitted from the encoding when
 * absent, the `Action` enumeration, and the decoders for the records that
 * nest references (`ExternalDoc`, `Tag`).
 */
module AsyncAPIModel {
  import opened Wrappers
  import opened JsonValue
  import opened References
  import SecuritySchemes

  datatype AsyncAPI = AsyncAPI(
    asyncapi: string,
    id: Option<string>,
    info: Info,
    servers: Option<map<string, Server>>,
    defaultContentType: Option<string>,
    channels: Option<map<string, Channel>>,
    operations: Option<map<string, Operation>>,
    components: Option<Components>)

  datatype Info = Info(
    title: string,
    version: string,
    description: Option<string>,
    termsOfService: Option<string>,
    contact: Option<Contact>,
    license: Option<License>,
    tags: Option<seq<Tag>>,
    externalDocs: Option<seq<ExternalDoc>>)

  datatype Contact = Contact(name: Option<string>, url: Option<string>, email: Option<string>)

  datatype License = License(name: string, url: Option<string>)

  /** The description field is spelled `descrtion` in the source, and so is its JSON key. */
  datatype Tag = Tag(name: string, descrtion: Option<string>, externalDocs: Option<seq<ReferenceOr<ExternalDoc>>>)

  datatype ExternalDoc = ExternalDoc(description: Option<string>, url: string)

  datatype Server = Server(
    host: string,
    pathname: Option<string>,
    title: Option<string>,
    summary: Option<string>,
    description: Option<string>,
    protocol: string,
    protocolVersion: Option<string>,
    variables: Option<ServerVariable>,
    security: Option<seq<ReferenceOr<SecurityRequirement>>>,
    tags: Option<seq<ReferenceOr<Tag>>>,
    externalDocs: Option<ReferenceOr<ExternalDoc>>,
    bindings: Option<Json>)

  datatype ServerVariable = ServerVariable(
    enumValues: Option<seq<string>>,
    defaultValue: Option<string>,
    description: Option<string>,
    examples: Option<seq<string>>)

  datatype SecurityRequirement = SecurityRequirement(requirements: map<string, seq<string>>)

  datatype Channel = Channel(
    address: Option<string>,
    title: Option<string>,
    summary: Option<string>,
    description: Option<string>,
    servers: Option<seq<ReferenceOr<Server>>>,
    tags: Option<seq<Tag>>,
    externalDocs: Option<ExternalDoc>,
    bindings: Option<Json>,
    messages: Option<map<string, ReferenceOr<Message>>>,
    parameters: Option<map<string, ReferenceOr<Parameter>>>)

  datatype Operation = Operation(
    action: Action,
    channel: ReferenceOr<Channel>,
    messages: Option<seq<ReferenceOr<Message>>>,
    reply: Option<OperationReply>,
    traits: Option<seq<ReferenceOr<OperationTrait>>>,
    title: Option<string>,
    summary: Option<string>,
    description: Option<string>,
    security: Option<seq<SecurityRequirement>>,
    tags: Option<seq<Tag>>,
    externalDocs: Option<ExternalDoc>,
    bindings: Option<Json>)

  datatype Action = Send | Receive

  datatype OperationReply = OperationReply(channel: ReferenceOr<Channel>, messages: seq<ReferenceOr<Message>>)

  datatype CorrelationId = CorrelationId(description: Option<string>, location: string)

  datatype Components = Components(
    schemas: Option<map<string, Json>>,
    messages: Option<map<string, Message>>,
    securitySchemes: Option<map<string, SecuritySchemes.SecurityScheme>>,
    parameters: Option<map<string, Parameter>>,
    correlationIds: Option<map<string, CorrelationId>>,
    operationTraits: Option<map<string, OperationTrait>>,
    messageTraits: Option<map<string, MessageTrait>>,
    serverBindings: Option<map<string, Json>>,
    channelBindings: Option<map<string, Json>>,
    operationBindings: Option<map<string, Json>>,
    messageBindings: Option<map<string, Json>>)

  datatype OperationTrait = OperationTrait(
    title: Option<string>,
    summary: Option<string>,
    description: Option<string>,
    tags: Option<seq<Tag>>,
    externalDocs: Option<ExternalDoc>,
    bindings: Option<Json>)

  datatype Message = Message(
    name: Option<string>,
    contentType: Option<string>,
    headers: Option<Json>,
    payload: Option<Json>,
    correlationId: Option<CorrelationId>,
    title: Option<string>,
    summary: Option<string>,
    description: Option<string>,
    tags: Option<seq<Tag>>,
    externalDocs: Option<ExternalDoc>,
    bindings: Option<Json>,
    examples: Option<seq<Json>>)

  datatype Parameter = Parameter(description: Option<string>, schema: Option<Json>, location: Option<string>)

  datatype MessageTrait = MessageTrait(
    headers: Option<Json>,
    correlationId: Option<CorrelationId>,
    contentType: Option<string>,
    name: Option<string>,
    title: Option<string>,
    summary: Option<string>,
    description: Option<string>,
    tags: Option<seq<Tag>>,
    externalDocs: Option<ExternalDoc>,
    bindings: Option<Json>,
    examples: Option<seq<Json>>)

  /** An `Info` with the given title and version and every optional field absent. */
  function EmptyInfo(title: string, version: string): Info {
    Info(title, version, None, None, None, None, None, None)
  }

  /** A `Channel` with every field absent. */
  function EmptyChannel(): Channel {
    Channel(None, None, None, None, None, None, None, None, None, None)
  }

  /** A `Message` with every field absent. */
  function EmptyMessage(): Message {
    Message(None, None, None, None, None, None, None, None, None, None, None, None)
  }

  // ---------------------------------------------------------------------------
  // Action: a string-backed enumeration.
  // ---------------------------------------------------------------------------

  function ActionName(a: Action): string {
    match a
    case Send => "send"
    case Receive => "receive"
  }

  function EncodeAction(a: Action): Json {
    JString(ActionName(a))
  }

  /** Only the two raw values decode; any other string or shape throws. */
  function DecodeAction(j: Json): (r: Decoded<Action>)
    ensures r.Ok? <==> j == JString("send") || j == JString("receive")
    ensures j.JNull? ==> r == Err(ValueNotFound(""))
    ensures !j.JNull? && !j.JString? ==> r == Err(TypeMismatch(""))
    ensures j.JString? && r.Err? ==> r.error.DataCorrupted?
  {
    if j.JNull? then Err(ValueNotFound(""))
    else if !j.JString? then Err(TypeMismatch(""))
    else if j.str == "send" then Ok(Send)
    else if j.str == "receive" then Ok(Receive)
    else Err(DataCorrupted("", "Cannot initialize Action from invalid String value " + j.str))
  }

  lemma ActionRoundTrip(a: Action)
    ensures DecodeAction(EncodeAction(a)) == Ok(a)
  {
  }

  /**
   * An inline value whose encoding is a bare string is read back as a
   * reference: no `ReferenceOr<Action>` holding a value round-trips, although
   * the action itself does.
   */
  lemma BareStringValueBecomesReference(a: Action)
    ensures Decode(Encode(Value(a), EncodeAction), DecodeAction) == Ok(Reference(ActionName(a)))
    ensures Decode(Encode(Value(a), EncodeAction), DecodeAction) != Ok(Value(a))
    ensures DecodeAction(EncodeAction(a)) == Ok(a)
  {
  }

  // ---------------------------------------------------------------------------
  // Encoders (synthesized Encodable: absent optionals are left out).
  // ---------------------------------------------------------------------------

  function Strs(xs: seq<string>): Json {
    Array(xs, Str)
  }

  function EncodeExternalDoc(d: ExternalDoc): Json {
    JObject(Opt("description", OptString(d.description)) + map["url" := JString(d.url)])
  }

  function EncodeTag(t: Tag): Json {
    JObject(
      map["name" := JString(t.name)]
      + Opt("descrtion", OptString(t.descrtion))
      + Opt("externalDocs", OptOf(t.externalDocs, (xs: seq<ReferenceOr<ExternalDoc>>) => EncodeArray(xs, EncodeExternalDoc))))
  }

  function Tags(ts: seq<Tag>): Json {
    Array(ts, EncodeTag)
  }

  function EncodeContact(c: Contact): Json {
    JObject(Opt("name", OptString(c.name)) + Opt("url", OptString(c.url)) + Opt("email", OptString(c.email)))
  }

  function EncodeLicense(l: License): Json {
    JObject(map["name" := JString(l.name)] + Opt("url", OptString(l.url)))
  }

  function EncodeInfo(i: Info): Json {
    JObject(
      map["title" := JString(i.title), "version" := JString(i.version)]
      + Opt("description", OptString(i.description))
      + Opt("termsOfService", OptString(i.termsOfService))
      + Opt("contact", OptOf(i.contact, EncodeContact))
      + Opt("license", OptOf(i.license, EncodeLicense))
      + Opt("tags", OptOf(i.tags, Tags))
      + Opt("externalDocs", OptOf(i.externalDocs, (ds: seq<ExternalDoc>) => Array(ds, EncodeExternalDoc))))
  }

  function EncodeServerVariable(v: ServerVariable): Json {
    JObject(
      Opt("enum", OptOf(v.enumValues, Strs))
      + Opt("default", OptString(v.defaultValue))
      + Opt("description", OptString(v.description))
      + Opt("examples", OptOf(v.examples, Strs)))
  }

  function EncodeSecurityRequirement(r: SecurityRequirement): Json {
    JObject(map["requirements" := Object(r.requirements, Strs)])
  }

  function EncodeServer(s: Server): Json {
    JObject(
      map["host" := JString(s.host), "protocol" := JString(s.protocol)]
      + Opt("pathname", OptString(s.pathname))
      + Opt("title", OptString(s.title))
      + Opt("summary", OptString(s.summary))
      + Opt("description", OptString(s.description))
      + Opt("protocolVersion", OptString(s.protocolVersion))
      + Opt("variables", OptOf(s.variables, EncodeServerVariable))
      + Opt("security", OptOf(s.security, (xs: seq<ReferenceOr<SecurityRequirement>>) => EncodeArray(xs, EncodeSecurityRequirement)))
      + Opt("tags", OptOf(s.tags, (xs: seq<ReferenceOr<Tag>>) => EncodeArray(xs, EncodeTag)))
      + Opt("externalDocs", OptOf(s.externalDocs, (x: ReferenceOr<ExternalDoc>) => Encode(x, EncodeExternalDoc)))
      + Opt("bindings", s.bindings))
  }

  function EncodeCorrelationId(c: CorrelationId): Json {
    JObject(Opt("description", OptString(c.description)) + map["location" := JString(c.location)])
  }

  function EncodeMessage(m: Message): Json {
    JObject(
      Opt("name", OptString(m.name))
      + Opt("contentType", OptString(m.contentType))
      + Opt("headers", m.headers)
      + Opt("payload", m.payload)
      + Opt("correlationId", OptOf(m.correlationId, EncodeCorrelationId))
      + Opt("title", OptString(m.title))
      + Opt("summary", OptString(m.summary))
      + Opt("description", OptString(m.description))
      + Opt("tags", OptOf(m.tags, Tags))
      + Opt("externalDocs", OptOf(m.externalDocs, EncodeExternalDoc))
      + Opt("bindings", m.bindings)
      + Opt("examples", OptOf(m.examples, (xs: seq<Json>) => JArray(xs))))
  }

  function EncodeParameter(p: Parameter): Json {
    JObject(
      Opt("description", OptString(p.description))
      + Opt("schema", p.schema)
      + Opt("location", OptString(p.location)))
  }

  function EncodeChannel(c: Channel): Json {
    JObject(
      Opt("address", OptString(c.address))
      + Opt("title", OptString(c.title))
      + Opt("summary", OptString(c.summary))
      + Opt("description", OptString(c.description))
      + Opt("servers", OptOf(c.servers, (xs: seq<ReferenceOr<Server>>) => EncodeArray(xs, EncodeServer)))
      + Opt("tags", OptOf(c.tags, Tags))
      + Opt("externalDocs", OptOf(c.externalDocs, EncodeExternalDoc))
      + Opt("bindings", c.bindings)
      + Opt("messages", OptOf(c.messages, (m: map<string, ReferenceOr<Message>>) =>
          Object(m, (x: ReferenceOr<Message>) => Encode(x, EncodeMessage))))
      + Opt("parameters", OptOf(c.parameters, (m: map<string, ReferenceOr<Parameter>>) =>
          Object(m, (x: ReferenceOr<Parameter>) => Encode(x, EncodeParameter)))))
  }

  function EncodeOperationTrait(t: OperationTrait): Json {
    JObject(
      Opt("title", OptString(t.title))
      + Opt("summary", OptString(t.summary))
      + Opt("description", OptString(t.description))
      + Opt("tags", OptOf(t.tags, Tags))
      + Opt("externalDocs", OptOf(t.externalDocs, EncodeExternalDoc))
      + Opt("bindings", t.bindings))
  }

  function EncodeReply(r: OperationReply): Json {
    JObject(map[
      "channel" := Encode(r.channel, EncodeChannel),
      "messages" := EncodeArray(r.messages, EncodeMessage)])
  }

  function EncodeOperation(o: Operation): Json {
    JObject(
      map["action" := EncodeAction(o.action), "channel" := Encode(o.channel, EncodeChannel)]
      + Opt("messages", OptOf(o.messages, (xs: seq<ReferenceOr<Message>>) => EncodeArray(xs, EncodeMessage)))
      + Opt("reply", OptOf(o.reply, EncodeReply))
      + Opt("traits", OptOf(o.traits, (xs: seq<ReferenceOr<OperationTrait>>) => EncodeArray(xs, EncodeOperationTrait)))
      + Opt("title", OptString(o.title))
      + Opt("summary", OptString(o.summary))
      + Opt("description", OptString(o.description))
      + Opt("security", OptOf(o.security, (xs: seq<SecurityRequirement>) => Array(xs, EncodeSecurityRequirement)))
      + Opt("tags", OptOf(o.tags, Tags))
      + Opt("externalDocs", OptOf(o.externalDocs, EncodeExternalDoc))
      + Opt("bindings", o.bindings))
  }

  function EncodeMessageTrait(t: MessageTrait): Json {
    JObject(
      Opt("headers", t.headers)
      + Opt("correlationId", OptOf(t.correlationId, EncodeCorrelationId))
      + Opt("contentType", OptString(t.contentType))
      + Opt("name", OptString(t.name))
      + Opt("title", OptString(t.title))
      + Opt("summary", OptString(t.summary))
      + Opt("description", OptString(t.description))
      + Opt("tags", OptOf(t.tags, Tags))
      + Opt("externalDocs", OptOf(t.externalDocs, EncodeExternalDoc))
      + Opt("bindings", t.bindings)
      + Opt("examples", OptOf(t.examples, (xs: seq<Json>) => JArray(xs))))
  }

  function JsonMap(m: map<string, Json>): Json {
    JObject(m)
  }

  function EncodeComponents(c: Components): Json {
    JObject(
      Opt("schemas", OptOf(c.schemas, JsonMap))
      + Opt("messages", OptOf(c.messages, (m: map<string, Message>) => Object(m, EncodeMessage)))
      + Opt("securitySchemes", OptOf(c.securitySchemes, (m: map<string, SecuritySchemes.SecurityScheme>) => Object(m, SecuritySchemes.Encode)))
      + Opt("parameters", OptOf(c.parameters, (m: map<string, Parameter>) => Object(m, EncodeParameter)))
      + Opt("correlationIds", OptOf(c.correlationIds, (m: map<string, CorrelationId>) => Object(m, EncodeCorrelationId)))
      + Opt("operationTraits", OptOf(c.operationTraits, (m: map<string, OperationTrait>) => Object(m, EncodeOperationTrait)))
      + Opt("messageTraits", OptOf(c.messageTraits, (m: map<string, MessageTrait>) => Object(m, EncodeMessageTrait)))
      + Opt("serverBindings", OptOf(c.serverBindings, JsonMap))
      + Opt("channelBindings", OptOf(c.channelBindings, JsonMap))
      + Opt("operationBindings", OptOf(c.operationBindings, JsonMap))
      + Opt("messageBindings", OptOf(c.messageBindings, JsonMap)))
  }

  /** The document: `asyncapi` and `info` always, each optional member only when present. */
  function EncodeAsyncAPI(d: AsyncAPI): Json {
    JObject(
      map["asyncapi" := JString(d.asyncapi), "info" := EncodeInfo(d.info)]
      + Opt("id", OptString(d.id))
      + Opt("servers", OptOf(d.servers, (m: map<string, Server>) => Object(m, EncodeServer)))
      + Opt("defaultContentType", OptString(d.defaultContentType))
      + Opt("channels", OptOf(d.channels, (m: map<string, Channel>) => Object(m, EncodeChannel)))
      + Opt("operations", OptOf(d.operations, (m: map<string, Operation>) => Object(m, EncodeOperation)))
      + Opt("components", OptOf(d.components, EncodeComponents)))
  }

  /** A document with only `asyncapi` and `info` encodes to exactly those two keys, and its info to title and version. */
  lemma MinimalDocumentEncoding(version: string, title: string, infoVersion: string)
    ensures var j := EncodeAsyncAPI(AsyncAPI(version, None, EmptyInfo(title, infoVersion), None, None, None, None, None));
      && j.fields.Keys == {"asyncapi", "info"}
      && j.fields["info"] == JObject(map["title" := JString(title), "version" := JString(infoVersion)])
  {
    var i := EmptyInfo(title, infoVersion);
    assert EncodeInfo(i).fields == map["title" := JString(title), "version" := JString(infoVersion)];
  }

  // ---------------------------------------------------------------------------
  // Key sets of the encoders: required keys always, optional ones only when present.
  // ---------------------------------------------------------------------------

  /** Info writes `title` and `version`, and each optional member only when present. */
  lemma InfoEncodingKeys(i: Info)
    ensures EncodeInfo(i).fields.Keys ==
      {"title", "version"} + KeyIf("description", i.description) + KeyIf("termsOfService", i.termsOfService)
      + KeyIf("contact", i.contact) + KeyIf("license", i.license) + KeyIf("tags", i.tags)
      + KeyIf("externalDocs", i.externalDocs)
  {
    PairKeys("title", JString(i.title), "version", JString(i.version));
    OptKeys("description", i.description, Str);
    OptKeys("termsOfService", i.termsOfService, Str);
    OptKeys("contact", i.contact, EncodeContact);
    OptKeys("license", i.license, EncodeLicense);
    OptKeys("tags", i.tags, Tags);
    OptKeys("externalDocs", i.externalDocs, (ds: seq<ExternalDoc>) => Array(ds, EncodeExternalDoc));
  }

  /** A server writes `host` and `protocol`, and each optional member only when present. */
  lemma ServerEncodingKeys(s: Server)
    ensures EncodeServer(s).fields.Keys ==
      {"host", "protocol"} + KeyIf("pathname", s.pathname) + KeyIf("title", s.title)
      + KeyIf("summary", s.summary) + KeyIf("description", s.description)
      + KeyIf("protocolVersion", s.protocolVersion) + KeyIf("variables", s.variables)
      + KeyIf("security", s.security) + KeyIf("tags", s.tags)
      + KeyIf("externalDocs", s.externalDocs) + KeyIf("bindings", s.bindings)
  {
    PairKeys("host", JString(s.host), "protocol", JString(s.protocol));
    OptKeys("pathname", s.pathname, Str);
    OptKeys("title", s.title, Str);
    OptKeys("summary", s.summary, Str);
    OptKeys("description", s.description, Str);
    OptKeys("protocolVersion", s.protocolVersion, Str);
    OptKeys("variables", s.variables, EncodeServerVariable);
    OptKeys("security", s.security, (xs: seq<ReferenceOr<SecurityRequirement>>) => EncodeArray(xs, EncodeSecurityRequirement));
    OptKeys("tags", s.tags, (xs: seq<ReferenceOr<Tag>>) => EncodeArray(xs, EncodeTag));
    OptKeys("externalDocs", s.externalDocs, (x: ReferenceOr<ExternalDoc>) => Encode(x, EncodeExternalDoc));
  }

  /** A channel has no required member: each one is written only when present. */
  lemma ChannelEncodingKeys(c: Channel)
    ensures EncodeChannel(c).fields.Keys ==
      KeyIf("address", c.address) + KeyIf("title", c.title) + KeyIf("summary", c.summary)
      + KeyIf("description", c.description) + KeyIf("servers", c.servers) + KeyIf("tags", c.tags)
      + KeyIf("externalDocs", c.externalDocs) + KeyIf("bindings", c.bindings)
      + KeyIf("messages", c.messages) + KeyIf("parameters", c.parameters)
  {
    OptKeys("address", c.address, Str);
    OptKeys("title", c.title, Str);
    OptKeys("summary", c.summary, Str);
    OptKeys("description", c.description, Str);
    OptKeys("servers", c.servers, (xs: seq<ReferenceOr<Server>>) => EncodeArray(xs, EncodeServer));
    OptKeys("tags", c.tags, Tags);
    OptKeys("externalDocs", c.externalDocs, EncodeExternalDoc);
    OptKeys("messages", c.messages, (m: map<string, ReferenceOr<Message>>) => Object(m, (x: ReferenceOr<Message>) => Encode(x, EncodeMessage)));
    OptKeys("parameters", c.parameters, (m: map<string, ReferenceOr<Parameter>>) => Object(m, (x: ReferenceOr<Parameter>) => Encode(x, EncodeParameter)));
  }

  /** An operation writes `action` and `channel`, and each optional member only when present. */
  lemma OperationEncodingKeys(o: Operation)
    ensures EncodeOperation(o).fields.Keys ==
      {"action", "channel"} + KeyIf("messages", o.messages) + KeyIf("reply", o.reply)
      + KeyIf("traits", o.traits) + KeyIf("title", o.title) + KeyIf("summary", o.summary)
      + KeyIf("description", o.description) + KeyIf("security", o.security)
      + KeyIf("tags", o.tags) + KeyIf("externalDocs", o.externalDocs) + KeyIf("bindings", o.bindings)
  {
    PairKeys("action", EncodeAction(o.action), "channel", Encode(o.channel, EncodeChannel));
    OptKeys("messages", o.messages, (xs: seq<ReferenceOr<Message>>) => EncodeArray(xs, EncodeMessage));
    OptKeys("reply", o.reply, EncodeReply);
    OptKeys("traits", o.traits, (xs: seq<ReferenceOr<OperationTrait>>) => EncodeArray(xs, EncodeOperationTrait));
    OptKeys("title", o.title, Str);
    OptKeys("summary", o.summary, Str);
    OptKeys("description", o.description, Str);
    OptKeys("security", o.security, (xs: seq<SecurityRequirement>) => Array(xs, EncodeSecurityRequirement));
    OptKeys("tags", o.tags, Tags);
    OptKeys("externalDocs", o.externalDocs, EncodeExternalDoc);
  }

  /** A message has no required member: each one is written only when present. */
  lemma MessageEncodingKeys(m: Message)
    ensures EncodeMessage(m).fields.Keys ==
      KeyIf("name", m.name) + KeyIf("contentType", m.contentType) + KeyIf("headers", m.headers)
      + KeyIf("payload", m.payload) + KeyIf("correlationId", m.correlationId) + KeyIf("title", m.title)
      + KeyIf("summary", m.summary) + KeyIf("description", m.description) + KeyIf("tags", m.tags)
      + KeyIf("externalDocs", m.externalDocs) + KeyIf("bindings", m.bindings) + KeyIf("examples", m.examples)
  {
    OptKeys("name", m.name, Str);
    OptKeys("contentType", m.contentType, Str);
    OptKeys("correlationId", m.correlationId, EncodeCorrelationId);
    OptKeys("title", m.title, Str);
    OptKeys("summary", m.summary, Str);
    OptKeys("description", m.description, Str);
    OptKeys("tags", m.tags, Tags);
    OptKeys("externalDocs", m.externalDocs, EncodeExternalDoc);
    OptKeys("examples", m.examples, (xs: seq<Json>) => JArray(xs));
  }

  /** The document writes `asyncapi` and `info`, and each optional member only when present. */
  lemma DocumentEncodingKeys(d: AsyncAPI)
    ensures EncodeAsyncAPI(d).fields.Keys ==
      {"asyncapi", "info"} + KeyIf("id", d.id) + KeyIf("servers", d.servers)
      + KeyIf("defaultContentType", d.defaultContentType) + KeyIf("channels", d.channels)
      + KeyIf("operations", d.operations) + KeyIf("components", d.components)
  {
    PairKeys("asyncapi", JString(d.asyncapi), "info", EncodeInfo(d.info));
    OptKeys("id", d.id, Str);
    OptKeys("servers", d.servers, (m: map<string, Server>) => Object(m, EncodeServer));
    OptKeys("defaultContentType", d.defaultContentType, Str);
    OptKeys("channels", d.channels, (m: map<string, Channel>) => Object(m, EncodeChannel));
    OptKeys("operations", d.operations, (m: map<string, Operation>) => Object(m, EncodeOperation));
    OptKeys("components", d.components, EncodeComponents);
  }

  // ---------------------------------------------------------------------------
  // Decoders of the records holding references, and their round trips.
  // ---------------------------------------------------------------------------

  function DecodeExternalDoc(j: Json): Decoded<ExternalDoc> {
    var o :- Container(j);
    var description :- DecodeStringIfPresent(o, "description");
    var url :- DecodeString(o, "url");
    Ok(ExternalDoc(description, url))
  }

  function DecodeRefExternalDoc(j: Json): Decoded<ReferenceOr<ExternalDoc>> {
    References.Decode(j, DecodeExternalDoc)
  }

  function DecodeTag(j: Json): Decoded<Tag> {
    var o :- Container(j);
    var name :- DecodeString(o, "name");
    var descrtion :- DecodeStringIfPresent(o, "descrtion");
    var externalDocs :- DecodeIfPresent(o, "externalDocs",
      (x: Json) => DecodeArrayValue(x, DecodeRefExternalDoc));
    Ok(Tag(name, descrtion, externalDocs))
  }

  lemma ExternalDocRoundTrip(d: ExternalDoc)
    ensures DecodeExternalDoc(EncodeExternalDoc(d)) == Ok(d)
  {
    var o := EncodeExternalDoc(d).fields;
    assert o["url"] == JString(d.url);
  }

  /**
   * External docs never encode to a reference shape (they have no `$ref` key),
   * so a `ReferenceOr<ExternalDoc>` round-trips in both of its cases.
   */
  lemma {:induction false} RefExternalDocRoundTrip(x: ReferenceOr<ExternalDoc>)
    ensures DecodeRefExternalDoc(Encode(x, EncodeExternalDoc)) == Ok(x)
  {
    if x.Value? {
      ExternalDocRoundTrip(x.value);
      assert RefKey !in EncodeExternalDoc(x.value).fields;
    }
    RoundTrip(x, EncodeExternalDoc, DecodeExternalDoc);
  }

  /** A tag, with its list of references-or-external-docs, round-trips through its encoding. */
  lemma TagRoundTrip(t: Tag)
    ensures DecodeTag(EncodeTag(t)) == Ok(t)
  {
    var enc := (xs: seq<ReferenceOr<ExternalDoc>>) => EncodeArray(xs, EncodeExternalDoc);
    var dec := (x: Json) => DecodeArrayValue(x, DecodeRefExternalDoc);
    var o := EncodeTag(t).fields;
    assert o["name"] == JString(t.name);
    assert DecodeStringIfPresent(o, "descrtion") == Ok(t.descrtion);
    if t.externalDocs.Some? {
      var xs := t.externalDocs.value;
      forall i | 0 <= i < |xs|
        ensures DecodeRefExternalDoc(Encode(xs[i], EncodeExternalDoc)) == Ok(xs[i])
      {
        RefExternalDocRoundTrip(xs[i]);
      }
      ArrayRoundTrip(xs, (r: ReferenceOr<ExternalDoc>) => Encode(r, EncodeExternalDoc), DecodeRefExternalDoc);
      assert o["externalDocs"] == enc(xs);
      assert DecodeIfPresent(o, "externalDocs", dec) == Ok(Some(xs));
    } else {
      assert "externalDocs" !in o;
    }
  }
}
