/**
 * The document builder of Sources/AsyncAPIBuilder/AsyncAPIDSL.swift: the
 * fragments a document is declared from (`Info`, `Server`, `Channel`,
 * `Operation`), their copy-and-return setters and `finish`, and the
 * `buildBlock` loop that folds the declared fragments into one document.
 */
module AsyncAPIDSL {
  import opened Wrappers
  import opened JsonValue
  import opened References
  import opened AsyncAPIModel

  /** The `asyncapi` version a builder starts with. */
  const DefaultVersion: string := "3.0.0"

  /** The protocol of a server declared without one. */
  const DefaultProtocol: string := "wss"

  // ---------------------------------------------------------------------------
  // Info.
  // ---------------------------------------------------------------------------

  datatype InfoFragment = InfoFragment(
    title: string,
    version: string,
    description: Option<string>,
    tags: Option<seq<Tag>>)
  {
    function WithDescription(d: string): (r: InfoFragment)
      ensures r.Finish() == Finish().(description := Some(d))
    {
      this.(description := Some(d))
    }

    function WithTags(ts: seq<Tag>): (r: InfoFragment)
      ensures r.Finish() == Finish().(tags := Some(ts))
    {
      this.(tags := Some(ts))
    }

    function Finish(): Info {
      EmptyInfo(title, version).(description := description, tags := tags)
    }
  }

  function NewInfo(title: string, version: string): InfoFragment {
    InfoFragment(title, version, None, None)
  }

  /** A fresh `Info` finishes to an info object holding only its title and version. */
  lemma NewInfoFinish(title: string, version: string)
    ensures NewInfo(title, version).Finish() == EmptyInfo(title, version)
    ensures NewInfo(title, version).Finish().title == title && NewInfo(title, version).Finish().version == version
  {
  }

  // ---------------------------------------------------------------------------
  // Server.
  // ---------------------------------------------------------------------------

  datatype ServerFragment = ServerFragment(
    key: string,
    url: string,
    protocol: Option<string>,
    description: Option<string>)
  {
    function WithProtocol(p: string): (r: ServerFragment)
      ensures r.key == key
      ensures r.Finish() == Finish().(protocol := p)
    {
      this.(protocol := Some(p))
    }

    function WithDescription(d: string): (r: ServerFragment)
      ensures r.key == key
      ensures r.Finish() == Finish().(description := Some(d))
    {
      this.(description := Some(d))
    }

    /** The url becomes the host; a server without a protocol gets `wss`. */
    function Finish(): (s: Server)
      ensures s.host == url && s.description == description
      ensures protocol.None? ==> s.protocol == DefaultProtocol
      ensures protocol.Some? ==> s.protocol == protocol.value
      ensures s.pathname.None? && s.title.None? && s.summary.None? && s.protocolVersion.None?
      ensures s.variables.None? && s.security.None? && s.tags.None? && s.externalDocs.None? && s.bindings.None?
    {
      Server(url, None, None, None, description, protocol.GetOr(DefaultProtocol),
             None, None, None, None, None, None)
    }
  }

  function NewServer(key: string, url: string): ServerFragment {
    ServerFragment(key, url, None, None)
  }

  /** The protocol of a finished server is the last one set, or `wss` when none was. */
  lemma ServerProtocol(key: string, url: string, q: string, p: string)
    ensures NewServer(key, url).Finish().protocol == "wss"
    ensures NewServer(key, url).WithProtocol(p).Finish().protocol == p
    ensures NewServer(key, url).WithProtocol(q).WithProtocol(p).Finish().protocol == p
  {
  }

  // ---------------------------------------------------------------------------
  // Channel.
  // ---------------------------------------------------------------------------

  datatype ChannelFragment = ChannelFragment(key: string, address: string)
  {
    /** Only the address is written; every other channel field is absent. */
    function Finish(): (c: Channel)
      ensures c == EmptyChannel().(address := Some(address))
    {
      Channel(Some(address), None, None, None, None, None, None, None, None, None)
    }
  }

  // ---------------------------------------------------------------------------
  // Operation.
  // ---------------------------------------------------------------------------

  /** `messages.map { .value($0) }`: each value wrapped, order and length kept. */
  function ValuesOf<T>(xs: seq<T>): (r: seq<ReferenceOr<T>>)
    ensures |r| == |xs|
    ensures forall i :: 0 <= i < |xs| ==> r[i] == Value(xs[i])
  {
    if |xs| == 0 then [] else ValuesOf(xs[..|xs| - 1]) + [Value(xs[|xs| - 1])]
  }

  /** `refs.map { .reference($0) }`: each string wrapped, order and length kept. */
  function RefsOf<T>(refs: seq<string>): (r: seq<ReferenceOr<T>>)
    ensures |r| == |refs|
    ensures forall i :: 0 <= i < |refs| ==> r[i] == ReferenceOr<T>.Reference(refs[i])
  {
    if |refs| == 0 then [] else RefsOf(refs[..|refs| - 1]) + [ReferenceOr<T>.Reference(refs[|refs| - 1])]
  }

  datatype OperationFragment = OperationFragment(
    key: string,
    action: Action,
    channel: Option<ReferenceOr<Channel>>,
    messages: Option<seq<ReferenceOr<Message>>>,
    reply: Option<OperationReply>,
    traits: Option<seq<ReferenceOr<OperationTrait>>>,
    title: Option<string>,
    summary: Option<string>,
    description: Option<string>,
    security: Option<seq<SecurityRequirement>>,
    tags: Option<seq<Tag>>,
    externalDocs: Option<ExternalDoc>,
    bindings: Option<Json>)
  {
    function WithChannel(c: Channel): (r: OperationFragment)
      ensures r.key == key
      ensures r.Finish() == Finish().(channel := Value(c))
    {
      this.(channel := Some(Value(c)))
    }

    function WithChannelRef(ref: string): (r: OperationFragment)
      ensures r.key == key
      ensures r.Finish() == Finish().(channel := Reference(ref))
    {
      this.(channel := Some(Reference(ref)))
    }

    function WithMessages(ms: seq<Message>): (r: OperationFragment)
      ensures r.key == key
      ensures r.Finish() == Finish().(messages := Some(ValuesOf(ms)))
    {
      this.(messages := Some(ValuesOf(ms)))
    }

    function WithMessageRefs(refs: seq<string>): (r: OperationFragment)
      ensures r.key == key
      ensures r.Finish() == Finish().(messages := Some(RefsOf(refs)))
    {
      this.(messages := Some(RefsOf(refs)))
    }

    function WithReply(rep: OperationReply): (r: OperationFragment)
      ensures r.key == key
      ensures r.Finish() == Finish().(reply := Some(rep))
    {
      this.(reply := Some(rep))
    }

    function WithTraits(ts: seq<OperationTrait>): (r: OperationFragment)
      ensures r.key == key
      ensures r.Finish() == Finish().(traits := Some(ValuesOf(ts)))
    {
      this.(traits := Some(ValuesOf(ts)))
    }

    function WithTraitRefs(refs: seq<string>): (r: OperationFragment)
      ensures r.key == key
      ensures r.Finish() == Finish().(traits := Some(RefsOf(refs)))
    {
      this.(traits := Some(RefsOf(refs)))
    }

    function WithTitle(t: string): (r: OperationFragment)
      ensures r.key == key
      ensures r.Finish() == Finish().(title := Some(t))
    {
      this.(title := Some(t))
    }

    function WithSummary(s: string): (r: OperationFragment)
      ensures r.key == key
      ensures r.Finish() == Finish().(summary := Some(s))
    {
      this.(summary := Some(s))
    }

    function WithDescription(d: string): (r: OperationFragment)
      ensures r.key == key
      ensures r.Finish() == Finish().(description := Some(d))
    {
      this.(description := Some(d))
    }

    function WithSecurity(sec: seq<SecurityRequirement>): (r: OperationFragment)
      ensures r.key == key
      ensures r.Finish() == Finish().(security := Some(sec))
    {
      this.(security := Some(sec))
    }

    function WithTags(ts: seq<Tag>): (r: OperationFragment)
      ensures r.key == key
      ensures r.Finish() == Finish().(tags := Some(ts))
    {
      this.(tags := Some(ts))
    }

    function WithExternalDocs(d: ExternalDoc): (r: OperationFragment)
      ensures r.key == key
      ensures r.Finish() == Finish().(externalDocs := Some(d))
    {
      this.(externalDocs := Some(d))
    }

    function WithBindings(b: Json): (r: OperationFragment)
      ensures r.key == key
      ensures r.Finish() == Finish().(bindings := Some(b))
    {
      this.(bindings := Some(b))
    }

    /** Every field is copied; a channel never set becomes a reference to `#/channels/<key>`. */
    function Finish(): Operation {
      Operation(action, channel.GetOr(Reference(ChannelRef(key))), messages, reply, traits,
                title, summary, description, security, tags, externalDocs, bindings)
    }
  }

  function NewOperation(key: string, action: Action): OperationFragment {
    OperationFragment(key, action, None, None, None, None, None, None, None, None, None, None, None)
  }

  /** A fresh operation finishes with its action, a reference to the channel of its own key, and nothing else. */
  lemma NewOperationFinish(key: string, action: Action)
    ensures NewOperation(key, action).Finish() ==
      Operation(action, Reference("#/channels/" + key), None, None, None, None, None, None, None, None, None, None)
  {
  }

  /** The last channel setter decides the channel, whichever overload it is. */
  lemma LastChannelWins(o: OperationFragment, c: Channel, ref: string)
    ensures o.WithChannel(c).WithChannelRef(ref).Finish().channel == Reference(ref)
    ensures o.WithChannelRef(ref).WithChannel(c).Finish().channel == Value(c)
    ensures o.channel.None? ==> o.Finish().channel == Reference(ChannelRef(o.key))
  {
  }

  // ---------------------------------------------------------------------------
  // The document builder and `buildBlock`.
  // ---------------------------------------------------------------------------

  /** `AsyncAPIBuilder`: the state `buildBlock` accumulates. */
  datatype DocumentBuilder = DocumentBuilder(
    asyncapi: string,
    id: Option<string>,
    info: Info,
    servers: map<string, Server>,
    defaultContentType: Option<string>,
    channels: map<string, Channel>,
    operations: map<string, Operation>,
    components: Option<Components>)
  {
    function WithId(i: string): (r: DocumentBuilder)
      ensures r.Finish() == Finish().(id := Some(i))
    {
      this.(id := Some(i))
    }

    function WithDefaultContentType(ct: string): (r: DocumentBuilder)
      ensures r.Finish() == Finish().(defaultContentType := Some(ct))
    {
      this.(defaultContentType := Some(ct))
    }

    /** An empty map becomes absent; a non-empty one is passed through unchanged. */
    function Finish(): (d: AsyncAPI)
      ensures d.asyncapi == asyncapi && d.id == id && d.info == info
      ensures d.defaultContentType == defaultContentType && d.components == components
      ensures d.servers.None? <==> |servers| == 0
      ensures d.servers.Some? ==> d.servers.value == servers
      ensures d.channels.None? <==> |channels| == 0
      ensures d.channels.Some? ==> d.channels.value == channels
      ensures d.operations.None? <==> |operations| == 0
      ensures d.operations.Some? ==> d.operations.value == operations
    {
      AsyncAPI(asyncapi, id, info,
               if |servers| == 0 then None else Some(servers),
               defaultContentType,
               if |channels| == 0 then None else Some(channels),
               if |operations| == 0 then None else Some(operations),
               components)
    }
  }

  /** `AsyncAPIBuilder(version:)`: empty title and version, no entries. */
  function NewBuilder(version: string): DocumentBuilder {
    DocumentBuilder(version, None, EmptyInfo("", ""), map[], None, map[], map[], None)
  }

  /** `AsyncAPIComponent`; an `Info` is finished when it is wrapped. */
  datatype Component =
    | InfoPart(info: Info)
    | ServerPart(server: ServerFragment)
    | ChannelPart(channel: ChannelFragment)
    | OperationPart(operation: OperationFragment)

  /** `buildExpression(_ info:)` */
  function InfoComponent(i: InfoFragment): Component {
    InfoPart(i.Finish())
  }

  /** One iteration of the loop in `buildBlock`. */
  function Step(b: DocumentBuilder, c: Component): DocumentBuilder {
    match c
    case InfoPart(i) => b.(info := i)
    case ServerPart(s) => b.(servers := b.servers[s.key := s.Finish()])
    case ChannelPart(ch) => b.(channels := b.channels[ch.key := ch.Finish()])
    case OperationPart(o) => b.(operations := b.operations[o.key := o.Finish()])
  }

  /** The builder after the loop has run over `cs`, left to right. */
  function Fold(b: DocumentBuilder, cs: seq<Component>): DocumentBuilder
    decreases |cs|
  {
    if |cs| == 0 then b else Step(Fold(b, cs[..|cs| - 1]), cs[|cs| - 1])
  }

  /** The document `buildBlock` returns for the declared components. */
  function Document(cs: seq<Component>): AsyncAPI {
    Fold(NewBuilder(DefaultVersion), cs).Finish()
  }

  /** `AsyncAPIDSL.buildBlock`: the loop updating `builder` in place, then `finish`. */
  method BuildBlock(components: seq<Component>) returns (doc: AsyncAPI)
    ensures doc == Document(components)
  {
    var builder := NewBuilder(DefaultVersion);
    for i := 0 to |components|
      invariant builder == Fold(NewBuilder(DefaultVersion), components[..i])
    {
      assert components[..i + 1][..i] == components[..i];
      match components[i]
      case InfoPart(info) =>
        builder := builder.(info := info);
      case ServerPart(server) =>
        builder := builder.(servers := builder.servers[server.key := server.Finish()]);
      case ChannelPart(channel) =>
        builder := builder.(channels := builder.channels[channel.key := channel.Finish()]);
      case OperationPart(operation) =>
        builder := builder.(operations := builder.operations[operation.key := operation.Finish()]);
    }
    assert components[..|components|] == components;
    doc := builder.Finish();
  }

  // ---------------------------------------------------------------------------
  // Keyed upserts, the shape shared by servers, channels and operations.
  // ---------------------------------------------------------------------------

  /** The map after writing `entry(c)` for each `c` of `cs` that has one, left to right. */
  function Upserts<C, V>(m: map<string, V>, cs: seq<C>, entry: C -> Option<(string, V)>): map<string, V>
    decreases |cs|
  {
    if |cs| == 0 then m
    else
      var m' := Upserts(m, cs[..|cs| - 1], entry);
      var e := entry(cs[|cs| - 1]);
      if e.Some? then m'[e.value.0 := e.value.1] else m'
  }

  /** The keys declared in `cs`. */
  ghost function DeclaredKeys<C, V>(cs: seq<C>, entry: C -> Option<(string, V)>): set<string> {
    set i | 0 <= i < |cs| && entry(cs[i]).Some? :: entry(cs[i]).value.0
  }

  /** `cs[i]` declares `k`, and no later element of `cs` declares `k` again. */
  ghost predicate LastDeclaring<C, V>(cs: seq<C>, entry: C -> Option<(string, V)>, i: int, k: string) {
    && 0 <= i < |cs|
    && entry(cs[i]).Some? && entry(cs[i]).value.0 == k
    && forall j :: i < j < |cs| && entry(cs[j]).Some? ==> entry(cs[j]).value.0 != k
  }

  lemma {:induction false} UpsertsKeys<C, V>(m: map<string, V>, cs: seq<C>, entry: C -> Option<(string, V)>)
    ensures Upserts(m, cs, entry).Keys == m.Keys + DeclaredKeys(cs, entry)
    decreases |cs|
  {
    if |cs| > 0 {
      var init := cs[..|cs| - 1];
      UpsertsKeys(m, init, entry);
      forall k | k in DeclaredKeys(cs, entry)
        ensures k in DeclaredKeys(init, entry) || (entry(cs[|cs| - 1]).Some? && entry(cs[|cs| - 1]).value.0 == k)
      {
        var i :| 0 <= i < |cs| && entry(cs[i]).Some? && entry(cs[i]).value.0 == k;
        if i < |cs| - 1 {
          assert init[i] == cs[i];
        }
      }
      forall k | k in DeclaredKeys(init, entry)
        ensures k in DeclaredKeys(cs, entry)
      {
        var i :| 0 <= i < |init| && entry(init[i]).Some? && entry(init[i]).value.0 == k;
        assert cs[i] == init[i];
      }
      if entry(cs[|cs| - 1]).Some? {
        assert entry(cs[|cs| - 1]).value.0 in DeclaredKeys(cs, entry);
      }
    }
  }

  /** The last element declaring `k` decides its value. */
  lemma {:induction false} UpsertsLastWins<C, V>(m: map<string, V>, cs: seq<C>, entry: C -> Option<(string, V)>, i: int, k: string)
    requires LastDeclaring(cs, entry, i, k)
    ensures k in Upserts(m, cs, entry) && Upserts(m, cs, entry)[k] == entry(cs[i]).value.1
    decreases |cs|
  {
    var init := cs[..|cs| - 1];
    if i < |cs| - 1 {
      forall j | i < j < |init| && entry(init[j]).Some?
        ensures entry(init[j]).value.0 != k
      {
        assert init[j] == cs[j];
      }
      assert init[i] == cs[i];
      UpsertsLastWins(m, init, entry, i, k);
    }
  }

  /** A key no element declares keeps the value it started with. */
  lemma {:induction false} UpsertsUntouched<C, V>(m: map<string, V>, cs: seq<C>, entry: C -> Option<(string, V)>, k: string)
    requires k in m && k !in DeclaredKeys(cs, entry)
    ensures k in Upserts(m, cs, entry) && Upserts(m, cs, entry)[k] == m[k]
    decreases |cs|
  {
    if |cs| > 0 {
      var init := cs[..|cs| - 1];
      if entry(cs[|cs| - 1]).Some? {
        assert entry(cs[|cs| - 1]).value.0 in DeclaredKeys(cs, entry);
      }
      forall j | 0 <= j < |init| && entry(init[j]).Some?
        ensures entry(init[j]).value.0 != k
      {
        assert init[j] == cs[j];
      }
      UpsertsUntouched(m, init, entry, k);
    }
  }

  // ---------------------------------------------------------------------------
  // What the fold computes.
  // ---------------------------------------------------------------------------

  function ServerEntry(c: Component): Option<(string, Server)> {
    if c.ServerPart? then Some((c.server.key, c.server.Finish())) else None
  }

  function ChannelEntry(c: Component): Option<(string, Channel)> {
    if c.ChannelPart? then Some((c.channel.key, c.channel.Finish())) else None
  }

  function OperationEntry(c: Component): Option<(string, Operation)> {
    if c.OperationPart? then Some((c.operation.key, c.operation.Finish())) else None
  }

  /** The info after the fold: the last declared one, or the starting one. */
  function LastInfo(start: Info, cs: seq<Component>): Info
    decreases |cs|
  {
    if |cs| == 0 then start
    else if cs[|cs| - 1].InfoPart? then cs[|cs| - 1].info
    else LastInfo(start, cs[..|cs| - 1])
  }

  /** With no info declared the starting one is kept; otherwise the last declared one wins. */
  lemma {:induction false} LastInfoSpec(start: Info, cs: seq<Component>)
    ensures (forall i :: 0 <= i < |cs| ==> !cs[i].InfoPart?) ==> LastInfo(start, cs) == start
    ensures forall i :: 0 <= i < |cs| && cs[i].InfoPart? && (forall j :: i < j < |cs| ==> !cs[j].InfoPart?) ==>
      LastInfo(start, cs) == cs[i].info
    decreases |cs|
  {
    if |cs| > 0 && !cs[|cs| - 1].InfoPart? {
      var init := cs[..|cs| - 1];
      LastInfoSpec(start, init);
      assert forall i :: 0 <= i < |init| ==> init[i] == cs[i];
    }
  }

  /** The keyed maps after the fold: each is the upsert of the entries of its own kind. */
  lemma {:induction false} FoldKeyed(b: DocumentBuilder, cs: seq<Component>)
    ensures Fold(b, cs).servers == Upserts(b.servers, cs, ServerEntry)
    ensures Fold(b, cs).channels == Upserts(b.channels, cs, ChannelEntry)
    ensures Fold(b, cs).operations == Upserts(b.operations, cs, OperationEntry)
    decreases |cs|
  {
    if |cs| > 0 {
      FoldKeyed(b, cs[..|cs| - 1]);
    }
  }

  /** The rest of the builder after the fold: the last declared info, and nothing else changed. */
  lemma {:induction false} FoldInfo(b: DocumentBuilder, cs: seq<Component>)
    ensures Fold(b, cs).info == LastInfo(b.info, cs)
    ensures Fold(b, cs).asyncapi == b.asyncapi && Fold(b, cs).id == b.id
    ensures Fold(b, cs).defaultContentType == b.defaultContentType && Fold(b, cs).components == b.components
    decreases |cs|
  {
    if |cs| > 0 {
      FoldInfo(b, cs[..|cs| - 1]);
    }
  }

  // ---------------------------------------------------------------------------
  // The document `buildBlock` returns.
  // ---------------------------------------------------------------------------

  /**
   * A keyed map built from no entries and then finished: absent exactly when
   * nothing was declared, otherwise holding exactly the declared keys, each
   * with the value of its last declaration.
   */
  lemma FinishedUpserts<C, V>(opt: Option<map<string, V>>, cs: seq<C>, entry: C -> Option<(string, V)>)
    requires opt.None? <==> |Upserts(map[], cs, entry)| == 0
    requires opt.Some? ==> opt.value == Upserts(map[], cs, entry)
    ensures opt.None? <==> DeclaredKeys(cs, entry) == {}
    ensures opt.Some? ==> opt.value.Keys == DeclaredKeys(cs, entry)
    ensures forall i, k :: LastDeclaring(cs, entry, i, k) ==> opt.Some? && k in opt.value && opt.value[k] == entry(cs[i]).value.1
  {
    var m: map<string, V> := map[];
    UpsertsKeys(m, cs, entry);
    var u := Upserts(m, cs, entry);
    assert u.Keys == DeclaredKeys(cs, entry);
    if |u| == 0 {
      assert u.Keys == {};
    } else {
      var k :| k in u;
    }
    forall i, k | LastDeclaring(cs, entry, i, k)
      ensures opt.Some? && k in opt.value && opt.value[k] == entry(cs[i]).value.1
    {
      UpsertsLastWins(m, cs, entry, i, k);
    }
  }

  /** The servers of the document: exactly the declared keys, the last declaration of each winning. */
  lemma DocumentServers(cs: seq<Component>)
    ensures Document(cs).servers.None? <==> DeclaredKeys(cs, ServerEntry) == {}
    ensures Document(cs).servers.Some? ==> Document(cs).servers.value.Keys == DeclaredKeys(cs, ServerEntry)
    ensures forall i, k :: LastDeclaring(cs, ServerEntry, i, k) ==>
      Document(cs).servers.Some? && k in Document(cs).servers.value &&
      Document(cs).servers.value[k] == cs[i].server.Finish()
  {
    FoldKeyed(NewBuilder(DefaultVersion), cs);
    FinishedUpserts(Document(cs).servers, cs, ServerEntry);
  }

  /** The channels of the document: exactly the declared keys, the last declaration of each winning. */
  lemma DocumentChannels(cs: seq<Component>)
    ensures Document(cs).channels.None? <==> DeclaredKeys(cs, ChannelEntry) == {}
    ensures Document(cs).channels.Some? ==> Document(cs).channels.value.Keys == DeclaredKeys(cs, ChannelEntry)
    ensures forall i, k :: LastDeclaring(cs, ChannelEntry, i, k) ==>
      Document(cs).channels.Some? && k in Document(cs).channels.value &&
      Document(cs).channels.value[k] == cs[i].channel.Finish()
  {
    FoldKeyed(NewBuilder(DefaultVersion), cs);
    FinishedUpserts(Document(cs).channels, cs, ChannelEntry);
  }

  /** The operations of the document: exactly the declared keys, the last declaration of each winning. */
  lemma DocumentOperations(cs: seq<Component>)
    ensures Document(cs).operations.None? <==> DeclaredKeys(cs, OperationEntry) == {}
    ensures Document(cs).operations.Some? ==> Document(cs).operations.value.Keys == DeclaredKeys(cs, OperationEntry)
    ensures forall i, k :: LastDeclaring(cs, OperationEntry, i, k) ==>
      Document(cs).operations.Some? && k in Document(cs).operations.value &&
      Document(cs).operations.value[k] == cs[i].operation.Finish()
  {
    FoldKeyed(NewBuilder(DefaultVersion), cs);
    FinishedUpserts(Document(cs).operations, cs, OperationEntry);
  }

  /**
   * The rest of the document: version `3.0.0`, no id, content type or
   * components, and the last declared info or, with none, empty title and version.
   */
  lemma DocumentInfo(cs: seq<Component>)
    ensures Document(cs).asyncapi == "3.0.0"
    ensures Document(cs).id.None? && Document(cs).defaultContentType.None? && Document(cs).components.None?
    ensures (forall i :: 0 <= i < |cs| ==> !cs[i].InfoPart?) ==> Document(cs).info == EmptyInfo("", "")
    ensures forall i :: 0 <= i < |cs| && cs[i].InfoPart? && (forall j :: i < j < |cs| ==> !cs[j].InfoPart?) ==>
      Document(cs).info == cs[i].info
  {
    FoldInfo(NewBuilder(DefaultVersion), cs);
    LastInfoSpec(EmptyInfo("", ""), cs);
  }
}
