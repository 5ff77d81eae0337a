/**
 * The component builders of Sources/AsyncAPIBuilder/ComponentBuilders.swift:
 * `Schema` and `Message` fragments with copy-and-return setters, and the
 * `ComponentsBuilder` whose mutating methods write its two keyed maps in place.
 */
module ComponentBuilders {
  import opened Wrappers
  import opened JsonValue
  import opened AsyncAPIModel

  // ---------------------------------------------------------------------------
  // Schema.
  // ---------------------------------------------------------------------------

  datatype SchemaFragment = SchemaFragment(key: string, value: Json)
  {
    function WithValue(v: Json): (r: SchemaFragment)
      ensures r.key == key && r.Finish() == v
    {
      this.(value := v)
    }

    function Finish(): Json {
      value
    }
  }

  /** `Schema(key:)`: the value defaults to the empty object. */
  function NewSchema(key: string): (s: SchemaFragment)
    ensures s.key == key && s.Finish() == JObject(map[])
  {
    SchemaFragment(key, JObject(map[]))
  }

  // ---------------------------------------------------------------------------
  // Message.
  // ---------------------------------------------------------------------------

  datatype MessageFragment = MessageFragment(
    key: string,
    name: Option<string>,
    contentType: Option<string>,
    headers: Option<Json>,
    payload: Option<Json>,
    correlationId: Option<CorrelationId>,
    title: Option<string>,
    summary: Option<string>,
    description: Option<string>,
    tags: Option<seq<Tag>>,
    externalDocs: Option<ExternalDoc>,
    bindings: Option<Json>,
    examples: Option<seq<Json>>)
  {
    function WithName(v: string): (r: MessageFragment)
      ensures r.key == key && r.Finish() == Finish().(name := Some(v))
    {
      this.(name := Some(v))
    }

    function WithContentType(v: string): (r: MessageFragment)
      ensures r.key == key && r.Finish() == Finish().(contentType := Some(v))
    {
      this.(contentType := Some(v))
    }

    function WithHeaders(v: Json): (r: MessageFragment)
      ensures r.key == key && r.Finish() == Finish().(headers := Some(v))
    {
      this.(headers := Some(v))
    }

    function WithPayload(v: Json): (r: MessageFragment)
      ensures r.key == key && r.Finish() == Finish().(payload := Some(v))
    {
      this.(payload := Some(v))
    }

    function WithCorrelationId(v: CorrelationId): (r: MessageFragment)
      ensures r.key == key && r.Finish() == Finish().(correlationId := Some(v))
    {
      this.(correlationId := Some(v))
    }

    function WithTitle(v: string): (r: MessageFragment)
      ensures r.key == key && r.Finish() == Finish().(title := Some(v))
    {
      this.(title := Some(v))
    }

    function WithSummary(v: string): (r: MessageFragment)
      ensures r.key == key && r.Finish() == Finish().(summary := Some(v))
    {
      this.(summary := Some(v))
    }

    function WithDescription(v: string): (r: MessageFragment)
      ensures r.key == key && r.Finish() == Finish().(description := Some(v))
    {
      this.(description := Some(v))
    }

    function WithTags(v: seq<Tag>): (r: MessageFragment)
      ensures r.key == key && r.Finish() == Finish().(tags := Some(v))
    {
      this.(tags := Some(v))
    }

    function WithExternalDocs(v: ExternalDoc): (r: MessageFragment)
      ensures r.key == key && r.Finish() == Finish().(externalDocs := Some(v))
    {
      this.(externalDocs := Some(v))
    }

    function WithBindings(v: Json): (r: MessageFragment)
      ensures r.key == key && r.Finish() == Finish().(bindings := Some(v))
    {
      this.(bindings := Some(v))
    }

    function WithExamples(v: seq<Json>): (r: MessageFragment)
      ensures r.key == key && r.Finish() == Finish().(examples := Some(v))
    {
      this.(examples := Some(v))
    }

    function Finish(): Message {
      Message(name, contentType, headers, payload, correlationId, title, summary,
              description, tags, externalDocs, bindings, examples)
    }
  }

  /** `Message(key:)`: every field absent. */
  function NewMessage(key: string): (m: MessageFragment)
    ensures m.key == key && m.Finish() == EmptyMessage()
  {
    MessageFragment(key, None, None, None, None, None, None, None, None, None, None, None, None)
  }

  /** The fragment holding exactly the fields of a finished message. */
  function FragmentOf(key: string, m: Message): MessageFragment {
    MessageFragment(key, m.name, m.contentType, m.headers, m.payload, m.correlationId, m.title,
                    m.summary, m.description, m.tags, m.externalDocs, m.bindings, m.examples)
  }

  /**
   * `finish` copies all twelve fields verbatim: the fragment can be rebuilt
   * from its finished message, and every message is the finish of one.
   */
  lemma MessageFinishRoundTrip(f: MessageFragment, key: string, m: Message)
    ensures FragmentOf(f.key, f.Finish()) == f
    ensures FragmentOf(key, m).Finish() == m
  {
  }

  // ---------------------------------------------------------------------------
  // ComponentsBuilder.
  // ---------------------------------------------------------------------------

  class ComponentsBuilder {
    var schemas: map<string, Json>
    var messages: map<string, Message>

    constructor ()
      ensures schemas == map[] && messages == map[]
    {
      schemas := map[];
      messages := map[];
    }

    /** `addSchema`: writes the one entry `schema.key`, overwriting any earlier one. */
    method AddSchema(schema: SchemaFragment)
      modifies this
      ensures schemas == old(schemas)[schema.key := schema.Finish()]
      ensures messages == old(messages)
    {
      schemas := schemas[schema.key := schema.Finish()];
    }

    /** `addMessage`: writes the one entry `message.key`, overwriting any earlier one. */
    method AddMessage(message: MessageFragment)
      modifies this
      ensures messages == old(messages)[message.key := message.Finish()]
      ensures schemas == old(schemas)
    {
      messages := messages[message.key := message.Finish()];
    }

    /**
     * `finish`: nothing at all when both maps are empty; otherwise an empty map
     * becomes absent, a non-empty one is passed through, and every other
     * kind of component is absent.
     */
    function Finish(): (c: Option<Components>)
      reads this
      ensures c.None? <==> |schemas| == 0 && |messages| == 0
      ensures c.Some? ==> (c.value.schemas.None? <==> |schemas| == 0)
      ensures c.Some? && c.value.schemas.Some? ==> c.value.schemas.value == schemas
      ensures c.Some? ==> (c.value.messages.None? <==> |messages| == 0)
      ensures c.Some? && c.value.messages.Some? ==> c.value.messages.value == messages
      ensures c.Some? ==> c.value == OnlySchemasAndMessages(c.value.schemas, c.value.messages)
    {
      if |schemas| == 0 && |messages| == 0 then None
      else Some(OnlySchemasAndMessages(
        if |schemas| == 0 then None else Some(schemas),
        if |messages| == 0 then None else Some(messages)))
    }
  }

  /** A components object with only schemas and messages. */
  function OnlySchemasAndMessages(schemas: Option<map<string, Json>>, messages: Option<map<string, Message>>): Components {
    Components(schemas, messages, None, None, None, None, None, None, None, None, None)
  }

  /** A message added after a schema: the finished components hold both, each under its own key. */
  method SchemaAndMessage(schema: SchemaFragment, message: MessageFragment) returns (c: Option<Components>)
    ensures c.Some? && c.value.schemas == Some(map[schema.key := schema.Finish()])
    ensures c.value.messages == Some(map[message.key := message.Finish()])
  {
    var b := new ComponentsBuilder();
    b.AddSchema(schema);
    b.AddMessage(message);
    c := b.Finish();
  }
}
